/** The hospital's statistics page: the appointments of this hospital on
    the chosen day, drawn as a chart of appointment times. */
module Statistics {
  import opened Common
  import opened Lists
  import opened Entities

  /** The filter of the effect: same hospital name and same calendar day
      (`toDateString` equality). */
  function DayAppointments(xs: seq<Appointment>, hospitalName: string, date: Date): (r: seq<Appointment>)
    ensures forall a :: a in r <==> a in xs && a.hospitalName == hospitalName && a.appointmentDate == date
    ensures IsSubsequence(r, xs)
    ensures forall a ::
      multiset(r)[a] == if a.hospitalName == hospitalName && a.appointmentDate == date then multiset(xs)[a] else 0
  {
    Filter(xs, (a: Appointment) => a.hospitalName == hospitalName && a.appointmentDate == date)
  }

  /** The parts of `chartData` that depend on the appointments. */
  datatype Chart = Chart(labels: seq<int>, data: seq<int>)

  /** One label per appointment, its time, in list order, and a count of 1
      for each. */
  function ChartData(xs: seq<Appointment>): (c: Chart)
    ensures |c.labels| == |xs| && |c.data| == |xs|
    ensures forall i :: 0 <= i < |xs| ==> c.labels[i] == xs[i].appointmentTime && c.data[i] == 1
  {
    Chart(seq(|xs|, i requires 0 <= i < |xs| => xs[i].appointmentTime), seq(|xs|, _ => 1))
  }

  /** Charting the appointments of two days: the labels of the two lists
      follow each other. */
  lemma ChartDataConcat(xs: seq<Appointment>, ys: seq<Appointment>)
    ensures ChartData(xs + ys).labels == ChartData(xs).labels + ChartData(ys).labels
    ensures ChartData(xs + ys).data == ChartData(xs).data + ChartData(ys).data
  {
  }

  /** The `Statistics` component. */
  class StatisticsPage {
    var appointments: seq<Appointment>
    var hospitalName: string
    var selectedDate: Date
    var filteredAppointments: seq<Appointment>

    /** What the filtering effect keeps true after it has run: once the
        hospital is known, the filtered list is that of the current
        inputs. */
    predicate Valid()
      reads this
    {
      hospitalName != "" ==> filteredAppointments == DayAppointments(appointments, hospitalName, selectedDate)
    }

    /** `today` is the `new Date()` the date picker starts on. */
    constructor(today: Date)
      ensures Valid()
      ensures appointments == [] && hospitalName == "" && selectedDate == today && filteredAppointments == []
    {
      appointments := [];
      hospitalName := "";
      selectedDate := today;
      filteredAppointments := [];
    }

    /** The filtering effect: nothing is filtered while the hospital name
        is empty. */
    method Refilter()
      modifies this
      ensures Valid()
      ensures hospitalName == "" ==> filteredAppointments == old(filteredAppointments)
      ensures appointments == old(appointments) && hospitalName == old(hospitalName)
      ensures selectedDate == old(selectedDate)
    {
      if hospitalName != "" {
        filteredAppointments := DayAppointments(appointments, hospitalName, selectedDate);
      }
    }

    /** The hospital effect and the filtering it triggers. With no `userId`,
        a failed fetch, or no hospital owned by the user, the name stays
        as it was. */
    method FetchHospital(userId: Option<int>, resp: Response<seq<Hospital>>)
      requires Valid()
      modifies this
      ensures Valid()
      ensures userId.Some? && resp.Ok? && HospitalOfUser(resp.body, userId).Some? ==>
        hospitalName == HospitalOfUser(resp.body, userId).value.hospitalName
      ensures userId.None? || resp.Failed? || HospitalOfUser(resp.body, userId).None? ==>
        hospitalName == old(hospitalName) && filteredAppointments == old(filteredAppointments)
      ensures appointments == old(appointments) && selectedDate == old(selectedDate)
    {
      if userId.Some? {
        match resp {
          case Ok(hs) =>
            match HospitalOfUser(hs, userId) {
              case Some(h) =>
                hospitalName := h.hospitalName;
                Refilter();
              case None =>
            }
          case Failed(_) =>
        }
      }
    }

    /** The appointments effect and the filtering it triggers. */
    method FetchAppointments(resp: Response<seq<Appointment>>)
      requires Valid()
      modifies this
      ensures Valid()
      ensures resp.Ok? ==> appointments == resp.body
      ensures resp.Failed? ==> appointments == old(appointments) && filteredAppointments == old(filteredAppointments)
      ensures hospitalName == old(hospitalName) && selectedDate == old(selectedDate)
      ensures hospitalName == "" ==> filteredAppointments == old(filteredAppointments)
    {
      match resp {
        case Ok(xs) =>
          appointments := xs;
          Refilter();
        case Failed(_) =>
      }
    }

    /** The date picker's `onChange` and the filtering it triggers. */
    method SelectDate(date: Date)
      requires Valid()
      modifies this
      ensures Valid()
      ensures selectedDate == date
      ensures appointments == old(appointments) && hospitalName == old(hospitalName)
      ensures hospitalName == "" ==> filteredAppointments == old(filteredAppointments)
    {
      selectedDate := date;
      Refilter();
    }

    /** What the component draws: the chart when some appointment is left
        after filtering, otherwise (`None`) the "No appointments" text. */
    function Rendered(): (c: Option<Chart>)
      reads this
      ensures c.Some? <==> filteredAppointments != []
      ensures c.Some? ==> c.value == ChartData(filteredAppointments) && |c.value.labels| > 0
    {
      if |filteredAppointments| > 0 then Some(ChartData(filteredAppointments)) else None
    }
  }
}
