/** The hospital's "Make an Appointment" page: the doctor list sorted by
    name, the search box with its drop-down, the availability cards and the
    hand-over to the time-slot picker. */
module MakeAppointments {
  import opened Common
  import opened Lists
  import opened Text
  import opened Entities

  // ---------------------------------------------------------------------
  // Sorting the doctor list

  predicate SortedByName(ds: seq<Doctor>) {
    forall i, j :: 0 <= i < j < |ds| ==> LexLeq(ds[i].doctorName, ds[j].doctorName)
  }

  /** `d` inserted into `ds` before the first doctor whose name it does not
      follow. */
  function InsertByName(d: Doctor, ds: seq<Doctor>): (r: seq<Doctor>)
    ensures multiset(r) == multiset(ds) + multiset{d}
  {
    if ds == [] then [d]
    else if LexLeq(d.doctorName, ds[0].doctorName) then [d] + ds
    else
      assert ds == [ds[0]] + ds[1..];
      [ds[0]] + InsertByName(d, ds[1..])
  }

  /** In a sorted list, a name no later than the first is no later than
      any. */
  lemma HeadLeqAll(n: string, ds: seq<Doctor>)
    requires SortedByName(ds) && ds != [] && LexLeq(n, ds[0].doctorName)
    ensures forall j :: 0 <= j < |ds| ==> LexLeq(n, ds[j].doctorName)
  {
    forall j | 0 <= j < |ds| ensures LexLeq(n, ds[j].doctorName) {
      if j > 0 {
        LexLeqTrans(n, ds[0].doctorName, ds[j].doctorName);
      }
    }
  }

  /** A doctor placed in front of a sorted list whose names it does not
      follow gives a sorted list. */
  lemma ConsSorted(x: Doctor, ds: seq<Doctor>)
    requires SortedByName(ds)
    requires forall j :: 0 <= j < |ds| ==> LexLeq(x.doctorName, ds[j].doctorName)
    ensures SortedByName([x] + ds)
  {
    var r := [x] + ds;
    forall i, j | 0 <= i < j < |r| ensures LexLeq(r[i].doctorName, r[j].doctorName) {
      if i > 0 {
        assert r[i] == ds[i - 1] && r[j] == ds[j - 1];
      } else {
        assert r[j] == ds[j - 1];
      }
    }
  }

  /** A name no later than `d` and than every name of `ds` is no later than
      any name after the insertion. */
  lemma InsertLowerBound(n: string, d: Doctor, ds: seq<Doctor>)
    requires LexLeq(n, d.doctorName)
    requires forall j :: 0 <= j < |ds| ==> LexLeq(n, ds[j].doctorName)
    ensures forall j :: 0 <= j < |InsertByName(d, ds)| ==> LexLeq(n, InsertByName(d, ds)[j].doctorName)
  {
    var r := InsertByName(d, ds);
    forall j | 0 <= j < |r| ensures LexLeq(n, r[j].doctorName) {
      assert r[j] in multiset(r);
      if r[j] != d {
        assert r[j] in multiset(ds);
        var k :| 0 <= k < |ds| && ds[k] == r[j];
      }
    }
  }

  /** Inserting into a sorted list keeps it sorted. */
  lemma {:induction false} InsertSorted(d: Doctor, ds: seq<Doctor>)
    requires SortedByName(ds)
    ensures SortedByName(InsertByName(d, ds))
  {
    if ds == [] {
    } else if LexLeq(d.doctorName, ds[0].doctorName) {
      HeadLeqAll(d.doctorName, ds);
      ConsSorted(d, ds);
    } else {
      var tail := ds[1..];
      assert SortedByName(tail);
      InsertSorted(d, tail);
      LexLeqTotal(d.doctorName, ds[0].doctorName);
      assert forall j :: 0 <= j < |tail| ==> LexLeq(ds[0].doctorName, tail[j].doctorName) by {
        forall j | 0 <= j < |tail| ensures LexLeq(ds[0].doctorName, tail[j].doctorName) {
          assert tail[j] == ds[j + 1];
        }
      }
      InsertLowerBound(ds[0].doctorName, d, tail);
      ConsSorted(ds[0], InsertByName(d, tail));
    }
  }

  /** `doctors.sort((a, b) => a.doctor_name.localeCompare(b.doctor_name))`:
      the same doctors, ordered by name. */
  function SortByName(ds: seq<Doctor>): (r: seq<Doctor>)
    ensures SortedByName(r)
    ensures multiset(r) == multiset(ds)
    ensures |r| == |ds|
  {
    if ds == [] then []
    else
      assert ds == [ds[0]] + ds[1..];
      InsertSorted(ds[0], SortByName(ds[1..]));
      InsertByName(ds[0], SortByName(ds[1..]))
  }

  /** A list already in name order comes back unchanged, equal names
      included. */
  lemma {:induction false} SortSorted(ds: seq<Doctor>)
    requires SortedByName(ds)
    ensures SortByName(ds) == ds
  {
    if ds != [] {
      var tail := ds[1..];
      assert SortedByName(tail);
      SortSorted(tail);
      if tail != [] {
        assert LexLeq(ds[0].doctorName, tail[0].doctorName);
      }
      assert ds == [ds[0]] + tail;
    }
  }

  // ---------------------------------------------------------------------
  // Availability

  /** `data.map(item => ({ ...item, isAvailable: true }))`. */
  function MarkAvailable(xs: seq<Availability>): (r: seq<Availability>)
    ensures |r| == |xs|
    ensures forall i :: 0 <= i < |xs| ==> r[i] == xs[i].(isAvailable := true)
  {
    seq(|xs|, i requires 0 <= i < |xs| => xs[i].(isAvailable := true))
  }

  /** Every card shows "Available", and apart from that flag each item is
      the one the server sent, at the same place. */
  lemma MarkAvailableShape(xs: seq<Availability>)
    ensures forall i :: 0 <= i < |xs| ==> MarkAvailable(xs)[i].isAvailable
    ensures forall i :: 0 <= i < |xs| ==>
      var a, b := MarkAvailable(xs)[i], xs[i];
      a.hospitalName == b.hospitalName && a.availableDate == b.availableDate &&
      a.startTime == b.startTime && a.endTime == b.endTime
    ensures MarkAvailable(MarkAvailable(xs)) == MarkAvailable(xs)
  {
  }

  // ---------------------------------------------------------------------
  // Searching

  /** The search test: the lower-cased term occurs in the lower-cased name
      or the lower-cased specialization. */
  predicate MatchesTerm(d: Doctor, term: string)
    ensures term == "" ==> MatchesTerm(d, term)
  {
    ContainsEmpty(ToLower(d.doctorName));
    Contains(ToLower(d.doctorName), ToLower(term)) ||
    Contains(ToLower(d.specialization), ToLower(term))
  }

  /** `filteredDoctors`. */
  function FilteredDoctors(ds: seq<Doctor>, term: string): (r: seq<Doctor>)
    ensures forall d :: d in r <==> d in ds && MatchesTerm(d, term)
    ensures IsSubsequence(r, ds)
    ensures forall d :: multiset(r)[d] == if MatchesTerm(d, term) then multiset(ds)[d] else 0
  {
    Filter(ds, d => MatchesTerm(d, term))
  }

  /** An empty search term keeps every doctor. */
  lemma EmptyTermKeepsAll(ds: seq<Doctor>)
    ensures FilteredDoctors(ds, "") == ds
  {
    forall i | 0 <= i < |ds| ensures MatchesTerm(ds[i], "") {
      ContainsEmpty(ToLower(ds[i].doctorName));
    }
    FilterKeepsAll(ds, d => MatchesTerm(d, ""));
  }

  /** Searching ignores the case of ASCII letters in the term. */
  lemma SearchIgnoresTermCase(ds: seq<Doctor>, t1: string, t2: string)
    requires ToLower(t1) == ToLower(t2)
    ensures FilteredDoctors(ds, t1) == FilteredDoctors(ds, t2)
  {
    FilterSameTest(ds, d => MatchesTerm(d, t1), d => MatchesTerm(d, t2));
  }

  /** What the search box shows under it. */
  datatype Dropdown = Hidden | MatchList(doctors: seq<Doctor>) | NoResults

  /** The two conditional blocks under the search input. */
  function DropdownView(showDropdown: bool, term: string, filtered: seq<Doctor>): (v: Dropdown)
    ensures v.MatchList? <==> showDropdown && term != "" && |filtered| > 0
    ensures v.NoResults? <==> showDropdown && term != "" && |filtered| == 0
    ensures v.MatchList? ==> v.doctors == filtered
  {
    if showDropdown && term != "" then
      if |filtered| > 0 then MatchList(filtered) else NoResults
    else Hidden
  }

  /** The specialization handed to the time-slot picker: that of the first
      doctor with the selected name, or 'Unknown' when there is none or it
      is empty. */
  function SpecializationOf(ds: seq<Doctor>, name: string): (r: string)
    ensures (forall i :: 0 <= i < |ds| ==> ds[i].doctorName != name) ==> r == "Unknown"
    ensures r != ""
    ensures r != "Unknown" ==> exists i :: 0 <= i < |ds| && ds[i].doctorName == name && ds[i].specialization == r
    ensures forall k :: 0 <= k < |ds| && ds[k].doctorName == name &&
                        (forall j :: 0 <= j < k ==> ds[j].doctorName != name) ==>
                          r == (if ds[k].specialization != "" then ds[k].specialization else "Unknown")
  {
    match Find(ds, (d: Doctor) => d.doctorName == name)
    case Some(d) => if d.specialization != "" then d.specialization else "Unknown"
    case None => "Unknown"
  }

  // ---------------------------------------------------------------------
  // The page

  /** The props given to the time-slot picker. */
  datatype SlotPickerProps = SlotPickerProps(
    hospitalName: Option<string>, doctorName: string, specialization: string,
    startTime: Option<int>, endTime: Option<int>, availableDate: Option<Date>)

  /** The `MakeAppointment` component. `availableDate` is `None` while it
      holds the initial ''. */
  class MakeAppointment {
    var doctors: seq<Doctor>
    var selectedDoctor: string
    var searchTerm: string
    var showDropdown: bool
    var doctorAvailability: seq<Availability>
    var selectedAvailability: Option<Availability>
    var showTimeSlots: bool
    var availableDate: Option<Date>

    constructor()
      ensures doctors == [] && selectedDoctor == "" && searchTerm == "" && !showDropdown
      ensures doctorAvailability == [] && selectedAvailability == None && !showTimeSlots
      ensures availableDate == None
    {
      doctors := [];
      selectedDoctor := "";
      searchTerm := "";
      showDropdown := false;
      doctorAvailability := [];
      selectedAvailability := None;
      showTimeSlots := false;
      availableDate := None;
    }

    /** The drop-down as rendered from the current state. */
    function View(): (v: Dropdown)
      reads this
      ensures v.MatchList? ==>
        showDropdown && searchTerm != "" &&
        forall d :: d in v.doctors <==> d in doctors && MatchesTerm(d, searchTerm)
    {
      DropdownView(showDropdown, searchTerm, FilteredDoctors(doctors, searchTerm))
    }

    /** The mount effect: a successful fetch stores the doctors sorted by
        name; a failed one leaves the list as it was. */
    method FetchDoctors(resp: Response<seq<Doctor>>)
      modifies this
      ensures resp.Ok? ==> doctors == SortByName(resp.body)
      ensures resp.Failed? ==> doctors == old(doctors)
      ensures SortedByName(old(doctors)) ==> SortedByName(doctors)
      ensures selectedDoctor == old(selectedDoctor) && searchTerm == old(searchTerm)
      ensures showDropdown == old(showDropdown) && doctorAvailability == old(doctorAvailability)
      ensures selectedAvailability == old(selectedAvailability) && showTimeSlots == old(showTimeSlots)
      ensures availableDate == old(availableDate)
    {
      match resp
      case Ok(ds) =>
        doctors := SortByName(ds);
      case Failed(_) =>
    }

    /** Typing into the search box: the term is stored and the drop-down
        opens. */
    method SearchInput(value: string)
      modifies this
      ensures searchTerm == value && showDropdown
      ensures doctors == old(doctors) && selectedDoctor == old(selectedDoctor)
      ensures doctorAvailability == old(doctorAvailability)
      ensures selectedAvailability == old(selectedAvailability) && showTimeSlots == old(showTimeSlots)
      ensures availableDate == old(availableDate)
    {
      searchTerm := value;
      showDropdown := true;
    }

    /** `handleDoctorSelect` followed by the availability fetch it starts:
        the doctor's name becomes both the selection and the search term,
        the drop-down closes, and a successful fetch replaces the cards. */
    method HandleDoctorSelect(doctor: Doctor, availability: Response<seq<Availability>>)
      modifies this
      ensures selectedDoctor == doctor.doctorName && searchTerm == doctor.doctorName
      ensures !showDropdown && View() == Hidden
      ensures availability.Ok? ==> doctorAvailability == MarkAvailable(availability.body)
      ensures availability.Failed? ==> doctorAvailability == old(doctorAvailability)
      ensures doctors == old(doctors)
      ensures selectedAvailability == old(selectedAvailability) && showTimeSlots == old(showTimeSlots)
      ensures availableDate == old(availableDate)
    {
      selectedDoctor := doctor.doctorName;
      searchTerm := doctor.doctorName;
      showDropdown := false;
      match availability
      case Ok(xs) =>
        doctorAvailability := MarkAvailable(xs);
      case Failed(_) =>
    }

    /** `handleAppointmentClick`: the chosen card is remembered, its date
        becomes `availableDate` and the slot picker is shown. */
    method HandleAppointmentClick(a: Availability)
      modifies this
      ensures selectedAvailability == Some(a) && availableDate == Some(a.availableDate) && showTimeSlots
      ensures doctors == old(doctors) && selectedDoctor == old(selectedDoctor)
      ensures searchTerm == old(searchTerm) && showDropdown == old(showDropdown)
      ensures doctorAvailability == old(doctorAvailability)
    {
      selectedAvailability := Some(a);
      availableDate := Some(a.availableDate);
      showTimeSlots := true;
    }

    /** The picker's `onClose`: the slots are hidden and the chosen card is
        forgotten; `availableDate` keeps its value. */
    method Close()
      modifies this
      ensures !showTimeSlots && selectedAvailability == None
      ensures availableDate == old(availableDate)
      ensures doctors == old(doctors) && selectedDoctor == old(selectedDoctor)
      ensures searchTerm == old(searchTerm) && showDropdown == old(showDropdown)
      ensures doctorAvailability == old(doctorAvailability)
    {
      showTimeSlots := false;
      selectedAvailability := None;
    }

    /** The props of the time-slot picker while it is shown. */
    function PickerProps(): (p: SlotPickerProps)
      reads this
      ensures selectedAvailability.Some? ==>
        p.hospitalName == Some(selectedAvailability.value.hospitalName) &&
        p.startTime == Some(selectedAvailability.value.startTime) &&
        p.endTime == Some(selectedAvailability.value.endTime)
      ensures selectedAvailability.None? ==> p.hospitalName == None && p.startTime == None && p.endTime == None
      ensures p.doctorName == selectedDoctor && p.availableDate == availableDate
      ensures p.specialization == SpecializationOf(doctors, selectedDoctor)
    {
      match selectedAvailability
      case Some(a) =>
        SlotPickerProps(Some(a.hospitalName), selectedDoctor, SpecializationOf(doctors, selectedDoctor),
                        Some(a.startTime), Some(a.endTime), availableDate)
      case None =>
        SlotPickerProps(None, selectedDoctor, SpecializationOf(doctors, selectedDoctor), None, None, availableDate)
    }
  }
}
