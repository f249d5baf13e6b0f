/** The records the two front ends receive from and send to the backend.
    Times of day are minutes after midnight, amounts are integers (cents),
    and calendar dates are (year, month, day) triples. */
module Entities {
  import opened Common
  import opened Lists

  datatype Date = Date(year: int, month: int, day: int)

  datatype Doctor = Doctor(
    doctorId: int, doctorName: string, specialization: string,
    contactNo: string, doctorCharge: int, hospitalName: string)

  datatype Hospital = Hospital(
    hospitalId: int, hospitalName: string, hospitalCharge: int, userId: int)

  datatype Patient = Patient(patientId: int, userId: int, patientName: string)

  /** An appointment as the appointments endpoint lists it. */
  datatype Appointment = Appointment(
    appointmentId: int, hospitalName: string, doctorName: string,
    specialization: string, appointmentDate: Date, appointmentTime: int,
    patientName: string, patientId: int, paymentId: int)

  datatype PatientRecord = PatientRecord(
    recordId: int, patientName: string, hospitalName: string, doctorName: string,
    appointmentId: string, diagnosis: string, medicines: string,
    labTestReportLink: string)

  /** One availability window of a doctor at a hospital on one date. */
  datatype Availability = Availability(
    hospitalName: string, availableDate: Date, startTime: int, endTime: int,
    isAvailable: bool)

  /** A patient or hospital object as the profile pages hold it: the owning
      account's `user_id` and every other key of the JSON object. */
  datatype Profile = Profile(userId: int, fields: map<string, string>)

  /** `patients.find(p => p.user_id === parseInt(userId))`; a missing or
      non-numeric `userId` (`None`) matches nobody. */
  function PatientOfUser(ps: seq<Patient>, userId: Option<int>): (r: Option<Patient>)
    ensures r.None? <==> forall i :: 0 <= i < |ps| ==> Some(ps[i].userId) != userId
    ensures r.Some? ==> exists k :: 0 <= k < |ps| && ps[k] == r.value && Some(ps[k].userId) == userId &&
                                     forall j :: 0 <= j < k ==> Some(ps[j].userId) != userId
  {
    Find(ps, (p: Patient) => Some(p.userId) == userId)
  }

  /** `hospitals.find(h => h.user_id === parseInt(userId))`. */
  function HospitalOfUser(hs: seq<Hospital>, userId: Option<int>): (r: Option<Hospital>)
    ensures r.None? <==> forall i :: 0 <= i < |hs| ==> Some(hs[i].userId) != userId
    ensures r.Some? ==> exists k :: 0 <= k < |hs| && hs[k] == r.value && Some(hs[k].userId) == userId &&
                                     forall j :: 0 <= j < k ==> Some(hs[j].userId) != userId
  {
    Find(hs, (h: Hospital) => Some(h.userId) == userId)
  }

  /** The same lookup over profile objects. */
  function ProfileOfUser(ps: seq<Profile>, userId: Option<int>): (r: Option<Profile>)
    ensures r.None? <==> forall i :: 0 <= i < |ps| ==> Some(ps[i].userId) != userId
    ensures r.Some? ==> exists k :: 0 <= k < |ps| && ps[k] == r.value && Some(ps[k].userId) == userId &&
                                     forall j :: 0 <= j < k ==> Some(ps[j].userId) != userId
  {
    Find(ps, (p: Profile) => Some(p.userId) == userId)
  }
}
