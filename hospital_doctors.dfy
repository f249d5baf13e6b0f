/** The hospital portal's doctor list: the signed-in hospital is looked up
    first, then the doctors working there are listed. */
module HospitalDoctors {
  import opened Common
  import opened Lists
  import opened Entities

  const HospitalNotFound := "Hospital not found for this user."
  const HospitalFetchFailed := "Error fetching hospital details. Please try again later."
  const DoctorFetchFailed := "Error fetching doctor details. Please try again later."

  /** `allDoctors.filter(doctor => doctor.hospital_name === hospital.hospital_name)`. */
  function DoctorsAt(ds: seq<Doctor>, hospitalName: string): (r: seq<Doctor>)
    ensures forall d :: d in r <==> d in ds && d.hospitalName == hospitalName
    ensures IsSubsequence(r, ds)
    ensures forall d :: multiset(r)[d] == if d.hospitalName == hospitalName then multiset(ds)[d] else 0
  {
    Filter(ds, (d: Doctor) => d.hospitalName == hospitalName)
  }

  /** What the page shows, in order of precedence. */
  datatype View = ErrorText(message: string) | LoadingDoctors | DoctorTable(hospitalName: string, doctors: seq<Doctor>)

  /** An error wins; otherwise a missing hospital or an empty list shows
      'Loading doctors...'; otherwise the table. */
  function ViewOf(error: string, hospital: Option<Hospital>, doctors: seq<Doctor>): (v: View)
    ensures error != "" <==> v == ErrorText(error)
    ensures v == LoadingDoctors <==> error == "" && (hospital.None? || doctors == [])
    ensures v.DoctorTable? <==> error == "" && hospital.Some? && doctors != []
    ensures v.DoctorTable? ==> v.hospitalName == hospital.value.hospitalName && v.doctors == doctors
  {
    if error != "" then ErrorText(error)
    else if hospital.None? || |doctors| == 0 then LoadingDoctors
    else DoctorTable(hospital.value.hospitalName, doctors)
  }

  /** The `HospitalDoctors` component. */
  class HospitalDoctorsPage {
    var doctors: seq<Doctor>
    var hospital: Option<Hospital>
    var error: string
    const userId: Option<int>

    constructor(userId: Option<int>)
      ensures doctors == [] && hospital == None && error == "" && this.userId == userId
    {
      doctors := [];
      hospital := None;
      error := "";
      this.userId := userId;
    }

    /** One run of the effect: while no hospital is known its details are
        fetched, and once one is known (and only then) its doctors are. */
    method Effect(hospitals: Response<seq<Hospital>>, allDoctors: Response<seq<Doctor>>)
      modifies this
      ensures old(hospital).None? ==> doctors == old(doctors)
      ensures old(hospital).None? && hospitals.Ok? && HospitalOfUser(hospitals.body, userId).Some? ==>
        hospital == HospitalOfUser(hospitals.body, userId) && error == old(error)
      ensures old(hospital).None? && hospitals.Ok? && HospitalOfUser(hospitals.body, userId).None? ==>
        hospital == None && error == HospitalNotFound
      ensures old(hospital).None? && hospitals.Failed? ==> hospital == None && error == HospitalFetchFailed
      ensures old(hospital).Some? ==> hospital == old(hospital)
      ensures old(hospital).Some? && allDoctors.Ok? ==>
        doctors == DoctorsAt(allDoctors.body, old(hospital).value.hospitalName) && error == old(error)
      ensures old(hospital).Some? && allDoctors.Failed? ==> doctors == old(doctors) && error == DoctorFetchFailed
    {
      if hospital.Some? {
        match allDoctors {
          case Ok(ds) =>
            doctors := DoctorsAt(ds, hospital.value.hospitalName);
          case Failed(_) =>
            error := DoctorFetchFailed;
        }
      } else {
        match hospitals {
          case Ok(hs) =>
            var found := HospitalOfUser(hs, userId);
            if found.Some? {
              hospital := found;
            } else {
              error := HospitalNotFound;
            }
          case Failed(_) =>
            error := HospitalFetchFailed;
        }
      }
    }

    /** From the first render: the effect runs, and runs again when it has
        set the hospital, this time fetching the doctors. */
    method Mount(hospitals: Response<seq<Hospital>>, allDoctors: Response<seq<Doctor>>)
      requires doctors == [] && hospital == None && error == ""
      modifies this
      ensures hospital == (if hospitals.Ok? then HospitalOfUser(hospitals.body, userId) else None)
      ensures hospital.None? ==> doctors == [] && error != "" && ViewOf(error, hospital, doctors) == ErrorText(error)
      ensures hospital.Some? && allDoctors.Ok? ==>
        doctors == DoctorsAt(allDoctors.body, hospital.value.hospitalName) && error == ""
      ensures hospital.Some? && allDoctors.Failed? ==> doctors == [] && error == DoctorFetchFailed
    {
      Effect(hospitals, allDoctors);
      if hospital.Some? {
        Effect(hospitals, allDoctors);
      }
    }
  }
}
