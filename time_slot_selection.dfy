/** The booking core of the patient portal: the time-slot generator, the
    charge lookups and their total, the slot click, and the confirm workflow
    that checks for a same-day appointment, creates a payment and then an
    appointment carrying that payment's id. The backend is an abstract pair
    of lists whose create requests succeed or fail as the server decides. */
module TimeSlotSelection {
  import opened Common
  import opened Lists
  import opened Entities

  /** Slots are this many minutes apart. */
  const SlotMinutes: int := 10

  // ---------------------------------------------------------------------
  // Slot generation

  /** Number of slots the loop produces: one for every multiple of ten
      minutes after `start` that is still before `end`. */
  function SlotCount(start: int, end: int): nat {
    if start < end then (end - start + SlotMinutes - 1) / SlotMinutes else 0
  }

  /** The slot list in closed form: `start`, `start + 10`, ... */
  function Slots(start: int, end: int): seq<int> {
    seq(SlotCount(start, end), i => start + SlotMinutes * i)
  }

  /** `n` is the number of ten-minute steps needed to reach `d`. */
  lemma CeilSteps(d: int, n: int)
    requires 0 < d && SlotMinutes * (n - 1) < d <= SlotMinutes * n
    ensures n == (d + SlotMinutes - 1) / SlotMinutes
  {
  }

  /** `generateTimeSlots`: a loop that pushes the current time and adds ten
      minutes while the current time is before the end of the window. */
  method GenerateTimeSlots(startTime: int, endTime: int) returns (slots: seq<int>)
    ensures slots == Slots(startTime, endTime)
  {
    var start := startTime;
    slots := [];
    while start < endTime
      invariant start == startTime + SlotMinutes * |slots|
      invariant forall i :: 0 <= i < |slots| ==> slots[i] == startTime + SlotMinutes * i
      invariant |slots| > 0 ==> start - SlotMinutes < endTime
      decreases endTime - start
    {
      slots := slots + [start];
      start := start + SlotMinutes;
    }
    if startTime < endTime {
      CeilSteps(endTime - startTime, |slots|);
    }
  }

  /** An empty or reversed window yields no slots, and only such a window. */
  lemma SlotsEmptyIff(start: int, end: int)
    ensures Slots(start, end) == [] <==> end <= start
  {
    if start < end {
      assert SlotCount(start, end) >= 1;
    }
  }

  /** The first slot is the window's start, slots increase strictly, and
      consecutive slots are exactly ten minutes apart. */
  lemma SlotsStepByTen(start: int, end: int)
    ensures start < end ==> Slots(start, end)[0] == start
    ensures var s := Slots(start, end);
      forall i :: 0 < i < |s| ==> s[i] == s[i - 1] + SlotMinutes
    ensures var s := Slots(start, end);
      forall i, j :: 0 <= i < j < |s| ==> s[i] < s[j]
  {
    SlotsEmptyIff(start, end);
  }

  /** Every slot starts inside the window, and together they reach its end:
      no start time below `end` on the ten-minute grid is missing. */
  lemma SlotsWithinWindow(start: int, end: int)
    ensures var s := Slots(start, end);
      forall i :: 0 <= i < |s| ==> start <= s[i] < end
    ensures var s := Slots(start, end);
      |s| > 0 ==> end <= s[|s| - 1] + SlotMinutes
  {
    var s := Slots(start, end);
    if start < end {
      var n := |s|;
      var d := end - start;
      assert n == (d + SlotMinutes - 1) / SlotMinutes;
      assert SlotMinutes * (n - 1) < d <= SlotMinutes * n;
      forall i | 0 <= i < n ensures start <= s[i] < end {
        assert s[i] == start + SlotMinutes * i;
      }
    }
  }

  /** When the window is a whole number of slots long, every slot ends by
      the end of the window. */
  lemma SlotsFitWhenAligned(start: int, end: int)
    requires (end - start) % SlotMinutes == 0
    ensures var s := Slots(start, end);
      forall i :: 0 <= i < |s| ==> s[i] + SlotMinutes <= end
  {
    var s := Slots(start, end);
    if start < end {
      assert |s| * SlotMinutes == end - start;
      forall i | 0 <= i < |s| ensures s[i] + SlotMinutes <= end {
        assert s[i] == start + SlotMinutes * i;
      }
    }
  }

  /** The window 09:00-09:25 yields 09:00, 09:10 and 09:20: the last slot
      is kept although it runs five minutes past the end of the window. */
  lemma LastSlotMayOverrun()
    ensures Slots(540, 565) == [540, 550, 560]
    ensures 560 + SlotMinutes > 565
  {
    assert SlotCount(540, 565) == 3;
  }

  // ---------------------------------------------------------------------
  // Lookups

  /** The doctor charge after `fetchDoctorCharge`: the charge of the first
      doctor with the given name, or the previous charge when the request
      failed or no doctor has that name. */
  function DoctorChargeAfter(resp: Response<seq<Doctor>>, doctorName: string, previous: int): (c: int)
    ensures resp.Failed? ==> c == previous
    ensures resp.Ok? && (forall i :: 0 <= i < |resp.body| ==> resp.body[i].doctorName != doctorName) ==>
              c == previous
    ensures resp.Ok? ==>
              forall k :: 0 <= k < |resp.body| && resp.body[k].doctorName == doctorName &&
                          (forall j :: 0 <= j < k ==> resp.body[j].doctorName != doctorName) ==>
                            c == resp.body[k].doctorCharge
  {
    match resp
    case Failed(_) => previous
    case Ok(ds) =>
      match FindIndex(ds, (d: Doctor) => d.doctorName == doctorName)
      case None => previous
      case Some(k) => ds[k].doctorCharge
  }

  /** The hospital charge after `fetchHospitalCharge`, in the same way. */
  function HospitalChargeAfter(resp: Response<seq<Hospital>>, hospitalName: string, previous: int): (c: int)
    ensures resp.Failed? ==> c == previous
    ensures resp.Ok? && (forall i :: 0 <= i < |resp.body| ==> resp.body[i].hospitalName != hospitalName) ==>
              c == previous
    ensures resp.Ok? ==>
              forall k :: 0 <= k < |resp.body| && resp.body[k].hospitalName == hospitalName &&
                          (forall j :: 0 <= j < k ==> resp.body[j].hospitalName != hospitalName) ==>
                            c == resp.body[k].hospitalCharge
  {
    match resp
    case Failed(_) => previous
    case Ok(hs) =>
      match FindIndex(hs, (h: Hospital) => h.hospitalName == hospitalName)
      case None => previous
      case Some(k) => hs[k].hospitalCharge
  }

  /** The patient name after `fetchPatientData`: the name of the first
      patient of the stored user id, or the previous value without a user
      id, on a failed request or when no patient matches. */
  function PatientDataAfter(userId: Option<int>, resp: Response<seq<Patient>>, previous: Option<string>): (r: Option<string>)
    ensures userId.None? || resp.Failed? ==> r == previous
    ensures resp.Ok? && (forall i :: 0 <= i < |resp.body| ==> Some(resp.body[i].userId) != userId) ==>
              r == previous
    ensures resp.Ok? ==>
              forall k :: 0 <= k < |resp.body| && Some(resp.body[k].userId) == userId &&
                          (forall j :: 0 <= j < k ==> Some(resp.body[j].userId) != userId) ==>
                            r == Some(resp.body[k].patientName)
  {
    if userId.Some? && resp.Ok? then
      match PatientOfUser(resp.body, userId)
      case None => previous
      case Some(p) => Some(p.patientName)
    else previous
  }

  /** The appointments `fetchExistingAppointments` keeps: those of the
      current patient id on the date being booked, in order. */
  function PatientDayAppointments(all: seq<Appointment>, patientId: int, date: Date): (r: seq<Appointment>)
    ensures forall i :: 0 <= i < |r| ==> r[i].patientId == patientId && r[i].appointmentDate == date
    ensures forall a :: a in all && a.patientId == patientId && a.appointmentDate == date ==> a in r
    ensures forall a :: multiset(r)[a] == if a.patientId == patientId && a.appointmentDate == date then multiset(all)[a] else 0
    ensures IsSubsequence(r, all)
  {
    var keep := (a: Appointment) => a.patientId == patientId && a.appointmentDate == date;
    Filter(all, keep)
  }

  /** The duplicate-day test of `handleConfirmAppointment`: some held
      appointment is on `date` and carries the current patient's name. A
      patient name that is still null matches nothing. */
  predicate HasSameDayAppointment(held: seq<Appointment>, date: Date, patient: Option<string>)
    ensures patient.None? ==> !HasSameDayAppointment(held, date, patient)
    ensures HasSameDayAppointment(held, date, patient) ==>
      exists a :: a in held && a.appointmentDate == date && Some(a.patientName) == patient
  {
    exists i :: 0 <= i < |held| && held[i].appointmentDate == date && Some(held[i].patientName) == patient
  }

  // ---------------------------------------------------------------------
  // Backend

  datatype Payment = Payment(paymentId: int, amount: int, paymentDate: Date, paymentMethod: string)

  /** The body of the appointment creation request. */
  datatype NewAppointment = NewAppointment(
    hospitalName: string, doctorName: string, appointmentDate: Date,
    appointmentTime: int, patientName: Option<string>, paymentId: int)

  /** The payment and appointment stores, as lists of what they accepted. */
  class Backend {
    var payments: seq<Payment>
    var appointments: seq<NewAppointment>

    constructor(payments: seq<Payment>, appointments: seq<NewAppointment>)
      ensures this.payments == payments && this.appointments == appointments
    {
      this.payments := payments;
      this.appointments := appointments;
    }

    /** POST payments: `accepted` is the server's answer. */
    method CreatePayment(p: Payment, accepted: bool) returns (ok: bool)
      modifies this
      ensures ok == accepted
      ensures payments == if accepted then old(payments) + [p] else old(payments)
      ensures appointments == old(appointments)
    {
      ok := accepted;
      if accepted {
        payments := payments + [p];
      }
    }

    /** POST appointments: `accepted` is the server's answer. */
    method CreateAppointment(a: NewAppointment, accepted: bool) returns (ok: bool)
      modifies this
      ensures ok == accepted
      ensures appointments == if accepted then old(appointments) + [a] else old(appointments)
      ensures payments == old(payments)
    {
      ok := accepted;
      if accepted {
        appointments := appointments + [a];
      }
    }
  }

  /** What the server answers to the three requests of one confirmation. */
  datatype ServerReplies = ServerReplies(
    paymentAccepted: bool,    // POST payments answers 2xx
    paymentId: int,           // the id the server gives the new payment
    paymentsListed: bool,     // GET payments answers with a usable list
    appointmentAccepted: bool // POST appointments answers 2xx
  )

  datatype ConfirmOutcome =
    | DuplicateDay                     // an alert, nothing sent
    | PaymentFailed                    // the payment request failed
    | PaymentLookupFailed              // the payment list could not be read
    | AppointmentFailed(paymentId: int) // a payment exists, no appointment
    | Booked(paymentId: int)

  // ---------------------------------------------------------------------
  // Component state

  /** Every state field of the component, for stating what a handler leaves
      unchanged. */
  datatype BookingState = BookingState(
    modalOpen: bool, selectedSlot: Option<int>, selectedCardNumber: Option<int>,
    doctorCharge: int, hospitalCharge: int, totalAmount: int,
    paymentMethod: string, patientData: Option<string>,
    bookedSlots: set<int>, existingAppointments: seq<Appointment>)

  /** The `TimeSlotSelection` component for one doctor, hospital, date and
      availability window. */
  class Booking {
    const hospitalName: string
    const doctorName: string
    const availableDate: Date
    const startTime: int
    const endTime: int

    var modalOpen: bool
    var selectedSlot: Option<int>
    var selectedCardNumber: Option<int>
    var doctorCharge: int
    var hospitalCharge: int
    var totalAmount: int
    var paymentMethod: string
    var patientData: Option<string>
    var bookedSlots: set<int>
    var existingAppointments: seq<Appointment>

    /** The effect on `[doctorCharge, hospitalCharge]` keeps the total equal
        to their sum. */
    predicate Valid()
      reads this
    {
      totalAmount == doctorCharge + hospitalCharge
    }

    ghost function State(): BookingState
      reads this
    {
      BookingState(modalOpen, selectedSlot, selectedCardNumber, doctorCharge,
                   hospitalCharge, totalAmount, paymentMethod, patientData,
                   bookedSlots, existingAppointments)
    }

    constructor(hospitalName: string, doctorName: string, availableDate: Date,
                startTime: int, endTime: int)
      ensures Valid()
      ensures this.hospitalName == hospitalName && this.doctorName == doctorName
      ensures this.availableDate == availableDate
      ensures this.startTime == startTime && this.endTime == endTime
      ensures State() == BookingState(false, None, None, 0, 0, 0, "", None, {}, [])
    {
      this.hospitalName := hospitalName;
      this.doctorName := doctorName;
      this.availableDate := availableDate;
      this.startTime := startTime;
      this.endTime := endTime;
      modalOpen := false;
      selectedSlot := None;
      selectedCardNumber := None;
      doctorCharge := 0;
      hospitalCharge := 0;
      totalAmount := 0;
      paymentMethod := "";
      patientData := None;
      bookedSlots := {};
      existingAppointments := [];
    }

    /** `handleSlotClick(slot, index)`: a booked slot is ignored; any other
        slot is selected, numbered `index + 1`, and the modal opens. */
    method HandleSlotClick(slot: int, index: int)
      modifies this
      ensures slot in old(bookedSlots) ==> State() == old(State())
      ensures slot !in old(bookedSlots) ==>
                State() == old(State()).(selectedSlot := Some(slot),
                                         selectedCardNumber := Some(index + 1),
                                         modalOpen := true)
    {
      if slot !in bookedSlots {
        selectedSlot := Some(slot);
        selectedCardNumber := Some(index + 1);
        modalOpen := true;
      }
    }

    /** The close button and the backdrop of the modal. */
    method CloseModal()
      modifies this
      ensures State() == old(State()).(modalOpen := false)
    {
      modalOpen := false;
    }

    /** The payment method drop-down. */
    method SelectPaymentMethod(m: string)
      modifies this
      ensures State() == old(State()).(paymentMethod := m)
    {
      paymentMethod := m;
    }

    /** `fetchDoctorCharge`, followed by the total's effect. */
    method FetchDoctorCharge(resp: Response<seq<Doctor>>)
      requires Valid()
      modifies this
      ensures Valid()
      ensures doctorCharge == DoctorChargeAfter(resp, doctorName, old(doctorCharge))
      ensures State() == old(State()).(doctorCharge := doctorCharge, totalAmount := totalAmount)
    {
      doctorCharge := DoctorChargeAfter(resp, doctorName, doctorCharge);
      totalAmount := doctorCharge + hospitalCharge;
    }

    /** `fetchHospitalCharge`, followed by the total's effect. */
    method FetchHospitalCharge(resp: Response<seq<Hospital>>)
      requires Valid()
      modifies this
      ensures Valid()
      ensures hospitalCharge == HospitalChargeAfter(resp, hospitalName, old(hospitalCharge))
      ensures State() == old(State()).(hospitalCharge := hospitalCharge, totalAmount := totalAmount)
    {
      hospitalCharge := HospitalChargeAfter(resp, hospitalName, hospitalCharge);
      totalAmount := doctorCharge + hospitalCharge;
    }

    /** `fetchPatientData`: the name of the first patient of the stored user
        id; nothing changes without a user id, on a failed request or when
        no patient matches. */
    method FetchPatientData(userId: Option<int>, resp: Response<seq<Patient>>)
      modifies this
      ensures userId.Some? && resp.Ok? && PatientOfUser(resp.body, userId).Some? ==>
                State() == old(State()).(patientData := Some(PatientOfUser(resp.body, userId).value.patientName))
      ensures !(userId.Some? && resp.Ok? && PatientOfUser(resp.body, userId).Some?) ==>
                State() == old(State())
    {
      if userId.Some? && resp.Ok? {
        var p := PatientOfUser(resp.body, userId);
        if p.Some? {
          patientData := Some(p.value.patientName);
        }
      }
    }

    /** `fetchExistingAppointments`: the appointments of the stored user id
        on the date being booked; nothing changes without a user id or on a
        failed request. */
    method FetchExistingAppointments(userId: Option<int>, resp: Response<seq<Appointment>>)
      modifies this
      ensures userId.Some? && resp.Ok? ==>
                State() == old(State()).(existingAppointments :=
                                          PatientDayAppointments(resp.body, userId.value, availableDate))
      ensures !(userId.Some? && resp.Ok?) ==> State() == old(State())
    {
      if userId.Some? && resp.Ok? {
        existingAppointments := PatientDayAppointments(resp.body, userId.value, availableDate);
      }
    }

    /** The effect on `modalOpen`: opening the modal runs the four fetches. */
    method OnModalOpenChanged(userId: Option<int>, doctors: Response<seq<Doctor>>,
                              hospitals: Response<seq<Hospital>>, patients: Response<seq<Patient>>,
                              appointments: Response<seq<Appointment>>)
      requires Valid()
      modifies this
      ensures Valid()
      ensures !old(modalOpen) ==> State() == old(State())
      ensures old(modalOpen) ==>
                var d := DoctorChargeAfter(doctors, doctorName, old(doctorCharge));
                var h := HospitalChargeAfter(hospitals, hospitalName, old(hospitalCharge));
                State() == old(State()).(
                  doctorCharge := d, hospitalCharge := h, totalAmount := d + h,
                  patientData := PatientDataAfter(userId, patients, old(patientData)),
                  existingAppointments :=
                    if userId.Some? && appointments.Ok?
                    then PatientDayAppointments(appointments.body, userId.value, availableDate)
                    else old(existingAppointments))
    {
      if modalOpen {
        FetchDoctorCharge(doctors);
        FetchHospitalCharge(hospitals);
        FetchPatientData(userId, patients);
        FetchExistingAppointments(userId, appointments);
      }
    }

    /** `handleConfirmAppointment`. The re-fetch updates
        `existingAppointments`, but the duplicate-day test reads the list
        the handler started with. The payment request carries the current
        total; the appointment request is sent only after the payment was
        accepted and the payment list was read, and carries the id of the
        last payment in that list. The slot is marked booked, and the modal
        closes, only when the appointment request is accepted. */
    method ConfirmAppointment(userId: Option<int>, appointmentsResp: Response<seq<Appointment>>,
                              today: Date, replies: ServerReplies, backend: Backend)
      returns (outcome: ConfirmOutcome)
      requires Valid()
      modifies this, backend
      ensures Valid()
      // the re-fetch always happens
      ensures existingAppointments ==
                if userId.Some? && appointmentsResp.Ok?
                then PatientDayAppointments(appointmentsResp.body, userId.value, availableDate)
                else old(existingAppointments)
      // the charges, the selection and the patient do not change
      ensures doctorCharge == old(doctorCharge) && hospitalCharge == old(hospitalCharge)
      ensures totalAmount == old(totalAmount) && paymentMethod == old(paymentMethod)
      ensures selectedSlot == old(selectedSlot) && selectedCardNumber == old(selectedCardNumber)
      ensures patientData == old(patientData)
      // which branch is taken
      ensures outcome.DuplicateDay? <==>
                HasSameDayAppointment(old(existingAppointments), availableDate, old(patientData))
      ensures outcome.PaymentFailed? <==> !outcome.DuplicateDay? && !replies.paymentAccepted
      ensures outcome.PaymentLookupFailed? <==>
                !outcome.DuplicateDay? && replies.paymentAccepted && !replies.paymentsListed
      ensures outcome.Booked? <==>
                !outcome.DuplicateDay? && replies.paymentAccepted && replies.paymentsListed &&
                old(selectedSlot).Some? && replies.appointmentAccepted
      // the payment store
      ensures outcome.DuplicateDay? || outcome.PaymentFailed? ==> backend.payments == old(backend.payments)
      ensures outcome.PaymentLookupFailed? || outcome.AppointmentFailed? || outcome.Booked? ==>
                backend.payments ==
                  old(backend.payments) + [Payment(replies.paymentId, old(doctorCharge) + old(hospitalCharge),
                                                   today, old(paymentMethod))]
      // the appointment store
      ensures !outcome.Booked? ==> backend.appointments == old(backend.appointments)
      ensures outcome.Booked? ==>
                backend.appointments ==
                  old(backend.appointments) + [NewAppointment(hospitalName, doctorName, availableDate,
                                                              old(selectedSlot).value, old(patientData),
                                                              outcome.paymentId)]
      // the payment id the appointment carries
      ensures outcome.AppointmentFailed? || outcome.Booked? ==>
                backend.payments != [] && outcome.paymentId == backend.payments[|backend.payments| - 1].paymentId
      // booked slots and the modal
      ensures bookedSlots == if outcome.Booked? then old(bookedSlots) + {old(selectedSlot).value}
                             else old(bookedSlots)
      ensures modalOpen == if outcome.Booked? then false else old(modalOpen)
    {
      var held := existingAppointments;
      FetchExistingAppointments(userId, appointmentsResp);

      if HasSameDayAppointment(held, availableDate, patientData) {
        return DuplicateDay;
      }

      var payment := Payment(replies.paymentId, totalAmount, today, paymentMethod);
      var paid := backend.CreatePayment(payment, replies.paymentAccepted);
      if !paid {
        return PaymentFailed;
      }

      if !replies.paymentsListed {
        return PaymentLookupFailed;
      }
      var paymentId := backend.payments[|backend.payments| - 1].paymentId;

      if selectedSlot.None? {
        // `selectedSlot.toTimeString()` throws before the request is sent
        return AppointmentFailed(paymentId);
      }
      var request := NewAppointment(hospitalName, doctorName, availableDate,
                                    selectedSlot.value, patientData, paymentId);
      var created := backend.CreateAppointment(request, replies.appointmentAccepted);
      if !created {
        return AppointmentFailed(paymentId);
      }

      bookedSlots := bookedSlots + {selectedSlot.value};
      modalOpen := false;
      return Booked(paymentId);
    }
  }
}
