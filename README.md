# MediSync front end — a verified model

MediSync is a two-portal web front end for booking hospital appointments. Patients use the
client portal to sign in, keep a profile, and book a ten-minute slot with a doctor. Booking
pays for the slot first and then files the appointment. Hospital staff use the hospital
portal to register their hospital and see its doctors. They also search doctors and open
their availability, keep patient records, and chart the day's appointments.

This project models the logic of those pages in Dafny:

- **Booking core** (`time_slot_selection.dfy`):
  - the slot generator, a loop proved equal to a closed form
  - the charge lookups and their total
  - slot selection
  - the confirm workflow: duplicate-day check, then payment, then appointment, then the booked slot
- **Form sanitisers and validators**:
  - `hospital_add.dfy`, which sanitises the hospital name and charge
  - `patient_add.dfy`
  - `login.dfy` and `register.dfy`, sharing `accounts.dfy`
- **List queries and updates**:
  - `make_appointments.dfy`: sort, search, drop-down and availability
  - `hospital_patient_history.dfy`: filters, replace-by-id and append
  - `statistics.dfy`
  - `my_appointments.dfy`
  - `patient_history.dfy`
  - `hospital_doctors.dfy`
- **Edit-form state machines** of the two profile pages (`profile_editing.dfy`).

Shared vocabulary lives in four modules:

- `common.dfy`: optional values, request outcomes, and the `error.response?.data?.error || fallback` rule.
- `lists.dfy`: `filter` and `find`, stated once as "exactly the matching elements, in order" and "the first match".
- `text.dfy`: character classes, ASCII case mapping, `includes`, name order and `parseInt`.
- `entities.dfy`: the records exchanged with the backend.

How the pages become Dafny:

- **Pages:** each component is a `class`. Its fields are the component's `useState` fields. Each handler
  or effect is a method that states the page's whole new state.
- **Requests:** every HTTP reply is an input of type `Response<T>`. It is either the body or a failure,
  the failure carrying the server's `error` text if one was sent.
- **Time, money and user ids:**
  - Times of day are minutes after midnight.
  - Dates are (year, month, day) triples.
  - Charges are integers, for example cents.
  - The `userId` read from local storage is an `Option<int>`.
- **Backend:** the booking backend is a `Backend` object whose payment and appointment lists grow when
  the server accepts a create request.

Three behaviours of the booking code are modelled as written:

- **Partial last slot.** The loop at `client/src/components/timeSlotSelection.jsx:25-28` keeps a
  trailing slot that runs past the end of the window, so a window yields `ceil((end-start)/10)` slots.
  - `TimeSlotSelection.GenerateTimeSlots` and `TimeSlotSelection.SlotsWithinWindow` state that count.
  - `TimeSlotSelection.LastSlotMayOverrun` shows 09:00–09:25 giving 09:00, 09:10 and 09:20.
  - `TimeSlotSelection.SlotsFitWhenAligned` shows that every slot ends inside the window only when the
    window is a whole number of slots; only then is the count also `floor((end-start)/10)`.
- **Stale duplicate check.** The confirm handler awaits a re-fetch of the patient's appointments, but
  its duplicate-day test reads the list the component held when the handler started
  (`client/src/components/timeSlotSelection.jsx:121-127`). That list is the one loaded when the modal
  opened (`TimeSlotSelection.Booking.OnModalOpenChanged`). `ConfirmAppointment` models exactly that.
- **What counts as a duplicate.** The test matches the held appointments on the date and the patient's
  name (`client/src/components/timeSlotSelection.jsx:124-127`); the hospital plays no part.

## Model

| member | source | states |
|---|---|---|
| Common.ErrorMessage | client/src/components/login.jsx:52-54 | a non-empty server `error` text is shown; otherwise the page's fallback text |
| Common.Get | client/src/components/login.jsx:34 | a form key reads as its value, and a missing key reads as empty (falsy) |
| Lists.Filter | hospital/src/components/makeAppointments.jsx:47-50 | `filter` keeps only matching elements, keeps every occurrence of each matching element, keeps the input order, and never lengthens |
| Lists.FilterKeepsAll | hospital/src/components/makeAppointments.jsx:47-50 | when every element matches, `filter` returns its input |
| Lists.FilterKeepsNone | hospital/src/components/statistics.jsx:47-53 | when no element matches, `filter` returns the empty list |
| Lists.FilterConcat | hospital/src/components/patientHistory.jsx:40 | filtering two lists joined is joining their filtered lists |
| Lists.FilterSameTest | hospital/src/components/makeAppointments.jsx:47-50 | two tests that agree on every element give the same result |
| Lists.FindIndex | client/src/components/timeSlotSelection.jsx:73 | the index found holds a match with no match before it; none is found exactly when nothing matches |
| Lists.Find | client/src/components/patientHistory.jsx:18 | `find` gives the first matching element, or nothing exactly when no element matches |
| Text.ToUpperChar | hospital/src/components/hospitalAdd.jsx:28 | each lower-case ASCII letter becomes the upper-case letter 32 code points below it, everything else is unchanged, and letters and `\w` characters stay so |
| Text.ToLowerChar | hospital/src/components/makeAppointments.jsx:48 | each upper-case ASCII letter becomes the lower-case letter 32 code points above it, everything else is unchanged |
| Text.ToLower | hospital/src/components/makeAppointments.jsx:48-49 | `toLowerCase` keeps the length and lower-cases each position |
| Text.Contains | hospital/src/components/makeAppointments.jsx:48-49 | `includes` holds exactly when the term occurs at some position |
| Text.ContainsEmpty | hospital/src/components/makeAppointments.jsx:48-49 | every string includes the empty term |
| Text.LexLeq | hospital/src/components/makeAppointments.jsx:23 | a name sorts before another only if its first character is not above the other's, and a prefix sorts before every longer name |
| Text.LexLeqRefl | hospital/src/components/makeAppointments.jsx:23 | the name order is reflexive |
| Text.LexLeqTotal | hospital/src/components/makeAppointments.jsx:23 | any two names are comparable |
| Text.LexLeqTrans | hospital/src/components/makeAppointments.jsx:23 | the name order is transitive |
| Text.LexLeqAntisym | hospital/src/components/makeAppointments.jsx:23 | names ordered both ways are equal |
| Text.ParseInt | client/src/components/patientAdd.jsx:45 | a number results exactly for an optional minus sign followed by digits; its value is the digits' value, negated after a minus sign; it is at most 0 exactly when there is a minus sign or every digit is '0' |
| Text.DigitsValueZero | client/src/components/patientAdd.jsx:38 | a digit string is worth zero exactly when all its digits are '0' |
| Entities.PatientOfUser | client/src/components/myAppointments.jsx:19 | the first patient whose `user_id` is the stored user id; none exactly when no patient has it |
| Entities.HospitalOfUser | hospital/src/components/statistics.jsx:21 | the first hospital whose `user_id` is the stored user id; none exactly when no hospital has it |
| Entities.ProfileOfUser | client/src/components/patientProfile.jsx:20 | the first profile whose `user_id` is the stored user id; none exactly when no profile has it |
| TimeSlotSelection.GenerateTimeSlots | client/src/components/timeSlotSelection.jsx:20-31 | the loop returns start, start+10, ... for every such time below the end: `ceil((end-start)/10)` slots, and none when end <= start |
| TimeSlotSelection.SlotsEmptyIff | client/src/components/timeSlotSelection.jsx:25 | the slot list is empty exactly when end <= start |
| TimeSlotSelection.SlotsStepByTen | client/src/components/timeSlotSelection.jsx:25-28 | the first slot is the start, consecutive slots are 10 minutes apart, and slots strictly increase |
| TimeSlotSelection.SlotsWithinWindow | client/src/components/timeSlotSelection.jsx:25-28 | every slot starts in [start, end), and the last one reaches the end, so none is missing |
| TimeSlotSelection.SlotsFitWhenAligned | client/src/components/timeSlotSelection.jsx:25-28 | when the window is a multiple of 10 minutes, every slot ends by the window's end |
| TimeSlotSelection.LastSlotMayOverrun | client/src/components/timeSlotSelection.jsx:25-28 | 09:00–09:25 yields 09:00, 09:10, 09:20; the last runs past the end and is kept |
| TimeSlotSelection.DoctorChargeAfter | client/src/components/timeSlotSelection.jsx:69-80 | the first doctor with that name gives the charge; a failed request or no such doctor keeps the previous charge |
| TimeSlotSelection.HospitalChargeAfter | client/src/components/timeSlotSelection.jsx:106-117 | the first hospital with that name gives the charge; a failed request or no such hospital keeps the previous charge |
| TimeSlotSelection.PatientDataAfter | client/src/components/timeSlotSelection.jsx:83-102 | the first patient of the stored user id names the booking; without a user id, on a failed request or with no such patient the previous name stays |
| TimeSlotSelection.PatientDayAppointments | client/src/components/timeSlotSelection.jsx:57-59 | exactly the appointments of this patient id on the booked date, each as often as it is listed, in order |
| TimeSlotSelection.HasSameDayAppointment | client/src/components/timeSlotSelection.jsx:124-127 | a duplicate is a held appointment on the booked date under the patient's name, and a patient name not yet loaded matches none |
| TimeSlotSelection.Backend.constructor | client/src/components/timeSlotSelection.jsx:136-175 | the backend starts from the given payment and appointment lists |
| TimeSlotSelection.Backend.CreatePayment | client/src/components/timeSlotSelection.jsx:136-151 | an accepted payment is appended to the payment list; a refused one changes nothing |
| TimeSlotSelection.Backend.CreateAppointment | client/src/components/timeSlotSelection.jsx:158-175 | an accepted appointment is appended to the appointment list; a refused one changes nothing |
| TimeSlotSelection.Booking.constructor | client/src/components/timeSlotSelection.jsx:7-16 | the initial state: modal closed, nothing selected, charges and total 0, no booked slot |
| TimeSlotSelection.Booking.HandleSlotClick | client/src/components/timeSlotSelection.jsx:36-43 | a booked slot changes nothing; otherwise the slot is selected, the card number is index+1 and the modal opens, and nothing else changes |
| TimeSlotSelection.Booking.CloseModal | client/src/components/timeSlotSelection.jsx:291 | only `modalOpen` changes, to false |
| TimeSlotSelection.Booking.SelectPaymentMethod | client/src/components/timeSlotSelection.jsx:363 | only `paymentMethod` changes |
| TimeSlotSelection.Booking.FetchDoctorCharge | client/src/components/timeSlotSelection.jsx:226-229 | the doctor charge follows `DoctorChargeAfter`, and the total stays the sum of the two charges |
| TimeSlotSelection.Booking.FetchHospitalCharge | client/src/components/timeSlotSelection.jsx:226-229 | the hospital charge follows `HospitalChargeAfter`, and the total stays the sum of the two charges |
| TimeSlotSelection.Booking.FetchPatientData | client/src/components/timeSlotSelection.jsx:83-102 | the first patient of the user names the booking; without a user id, on failure or with no match, nothing changes |
| TimeSlotSelection.Booking.FetchExistingAppointments | client/src/components/timeSlotSelection.jsx:45-65 | the held list becomes this patient's appointments on the date; without a user id or on failure, nothing changes |
| TimeSlotSelection.Booking.OnModalOpenChanged | client/src/components/timeSlotSelection.jsx:232-239 | opening the modal re-reads both charges (total their sum), the patient name and the patient's appointments on the date, each as its own fetch would; every other field is unchanged; a closed modal changes nothing |
| TimeSlotSelection.Booking.ConfirmAppointment | client/src/components/timeSlotSelection.jsx:119-199 | a same-day appointment in the list held at the start stops everything. Otherwise the payment (old total) is created first, and a refused payment means no appointment. The appointment carries the last listed payment's id. Only an accepted appointment adds the slot to `bookedSlots` and closes the modal |
| HospitalAdd.CapitaliseWords | hospital/src/components/hospitalAdd.jsx:28 | capitalisation keeps the length |
| HospitalAdd.SanitiseName | hospital/src/components/hospitalAdd.jsx:25-29 | the stored name is as long as the characters the filter keeps, and never longer than the input |
| HospitalAdd.SanitisedNameChars | hospital/src/components/hospitalAdd.jsx:26-28 | the stored name holds only ASCII letters, '.', apostrophes and spaces |
| HospitalAdd.WordStartInName | hospital/src/components/hospitalAdd.jsx:28 | among name characters, `\b\w` matches exactly a letter that is first or follows '.', an apostrophe or a space |
| HospitalAdd.CapitaliseNameChars | hospital/src/components/hospitalAdd.jsx:28 | such a letter becomes the same letter in upper case; every other character is unchanged |
| HospitalAdd.SanitisedNameShape | hospital/src/components/hospitalAdd.jsx:26-28 | the stored name is no longer than the input, keeps the surviving characters in order, upper-cases word-initial letters and keeps every other character |
| HospitalAdd.CapitaliseWordsIdempotent | hospital/src/components/hospitalAdd.jsx:28 | capitalising twice is capitalising once |
| HospitalAdd.SanitiseNameIdempotent | hospital/src/components/hospitalAdd.jsx:26-28 | sanitising a stored name again changes nothing |
| HospitalAdd.LooksNegative | hospital/src/components/hospitalAdd.jsx:34 | the stand-in for `parseFloat(v) < 0` (also used at line 54) needs a first character that is neither a digit nor '.' |
| HospitalAdd.SanitiseCharge | hospital/src/components/hospitalAdd.jsx:32-37 | the stored charge holds only digits and '.', in the input's order |
| HospitalAdd.SanitiseField | hospital/src/components/hospitalAdd.jsx:20-41 | the charge field stores only digits and '.', the name field is never longer than the input, and any other field stores the value as typed |
| HospitalAdd.SanitisedCharge | hospital/src/components/hospitalAdd.jsx:33-36 | the stored charge holds only digits and '.', is an in-order selection of the input, and the reset-if-negative branch never fires |
| HospitalAdd.CheckHospital | hospital/src/components/hospitalAdd.jsx:46-68 | an empty name or charge gives 'All fields are required.'; a negative charge gives the non-negative message; a filled, non-negative form is accepted, and the request is the name, `parseFloat` of the charge (NaN as none) and the user id |
| HospitalAdd.ParseCharge | hospital/src/components/hospitalAdd.jsx:61-68 | the charge sent is never negative, and it is NaN exactly when no digit comes before a second non-digit |
| HospitalAdd.DigitRun | hospital/src/components/hospitalAdd.jsx:68 | the longest prefix of digits: all digits, and the next character, if any, is not one |
| HospitalAdd.DigitRunOfDigits | hospital/src/components/hospitalAdd.jsx:68 | `parseFloat` reads a run of digits up to the first character that is not one |
| HospitalAdd.ParseChargeWhole | hospital/src/components/hospitalAdd.jsx:68 | a charge of digits only is sent as that whole number |
| HospitalAdd.ParseChargeDecimal | hospital/src/components/hospitalAdd.jsx:68 | digits, a point and digits are sent as that decimal number |
| HospitalAdd.ParseChargeStopsAtSecondPoint | hospital/src/components/hospitalAdd.jsx:68 | a second point ends the number, and what follows it is ignored |
| HospitalAdd.ParseChargeExample | hospital/src/components/hospitalAdd.jsx:68 | the accepted charge text "1.2.3" is sent as 1.2 |
| HospitalAdd.StoredChargeNeverNegative | hospital/src/components/hospitalAdd.jsx:54-57 | a charge made of digits and '.' never gets the non-negative message |
| HospitalAdd.HospitalForm.constructor | hospital/src/components/hospitalAdd.jsx:12-18 | both fields start empty, the user id is the stored one, and there is no error |
| HospitalAdd.HospitalForm.HandleChange | hospital/src/components/hospitalAdd.jsx:20-41 | only the named field changes, to its sanitised value; the error is cleared; the charge field stays digits and '.' |
| HospitalAdd.HospitalForm.AddHospital | hospital/src/components/hospitalAdd.jsx:43-82 | a refused form sets the message and sends nothing. Otherwise the request is sent; success navigates to /hospitals, and failure sets the server text or 'Adding hospital unsuccessful!' |
| PatientAdd.CheckPatient | client/src/components/patientAdd.jsx:31-41 | any empty field among the seven gives 'All fields are required.' (checked first); a filled form with age <= 0 gives 'Age must be a positive number.'; otherwise the request is `parseInt(age)` with the other six fields unchanged |
| PatientAdd.RequiredBeforeAge | client/src/components/patientAdd.jsx:33-41 | a missing field is reported even when the age is also wrong |
| PatientAdd.AgeNotAbove0 | client/src/components/patientAdd.jsx:38 | `age <= 0` holds exactly for an integer literal with a minus sign or of zeros only |
| PatientAdd.NegativeAgeRefused | client/src/components/patientAdd.jsx:38-41 | a filled form whose age is a minus sign followed by digits is refused with the age message |
| PatientAdd.ZeroAgeRefused | client/src/components/patientAdd.jsx:38-41 | a filled form whose age is all zeros is refused with the age message |
| PatientAdd.PositiveAgeAccepted | client/src/components/patientAdd.jsx:38-61 | a filled form with a positive whole age is accepted, and the request carries that number |
| PatientAdd.PatientForm.constructor | client/src/components/patientAdd.jsx:12-21 | the seven fields start empty and there is no error |
| PatientAdd.PatientForm.HandleChange | client/src/components/patientAdd.jsx:23-26 | only the named field changes and the error is cleared |
| PatientAdd.PatientForm.AddPatient | client/src/components/patientAdd.jsx:28-74 | a refused form sets the message and sends nothing. Otherwise the request is sent; success navigates to /patients, and failure sets the server text or 'Adding patient unsuccessful!' |
| Accounts.CheckCredentials | client/src/components/login.jsx:34-37 | an empty username or password gives 'Username and Password are required.'; otherwise both are sent as typed |
| Accounts.EditKeepsAccepted | client/src/components/register.jsx:22-33 | editing either field of an acceptable form to a non-empty value keeps it acceptable |
| Login.Toggled | client/src/components/login.jsx:26-28 | the visibility is negated |
| Login.LoginForm.constructor | client/src/components/login.jsx:14-19 | both fields start empty, the password is hidden and there is no error |
| Login.LoginForm.HandleChange | client/src/components/login.jsx:21-24 | only the named field changes and the error is cleared |
| Login.LoginForm.TogglePasswordVisibility | client/src/components/login.jsx:26-28 | only `showPassword` changes, to its negation |
| Login.LoginForm.LoginUser | client/src/components/login.jsx:30-55 | empty credentials set the message and send nothing. Success stores the token and navigates to /dashboard; failure sets the server text or 'Login Unsuccessful!' and stores nothing |
| Login.ToggleTwiceRestores | client/src/components/login.jsx:26-28 | two clicks on the eye icon leave every field of the form as it was |
| Register.RegisterForm.constructor | client/src/components/register.jsx:16-20 | both fields start empty and there is no error |
| Register.RegisterForm.HandleChange | client/src/components/register.jsx:22-25 | only the named field changes and the error is cleared |
| Register.RegisterForm.RegisterUser | client/src/components/register.jsx:27-53 | empty credentials set the message and send nothing. Otherwise the request is sent; success navigates to /login, and failure sets the server text or 'Registration Unsuccessful!' |
| MakeAppointments.InsertByName | hospital/src/components/makeAppointments.jsx:23 | inserting adds exactly that doctor |
| MakeAppointments.HeadLeqAll | hospital/src/components/makeAppointments.jsx:23 | in a sorted list, a name before the first is before all |
| MakeAppointments.ConsSorted | hospital/src/components/makeAppointments.jsx:23 | a doctor put in front of a sorted list it precedes gives a sorted list |
| MakeAppointments.InsertLowerBound | hospital/src/components/makeAppointments.jsx:23 | a name before the inserted doctor and before all others is before every doctor after insertion |
| MakeAppointments.InsertSorted | hospital/src/components/makeAppointments.jsx:23 | inserting into a sorted list keeps it sorted |
| MakeAppointments.SortByName | hospital/src/components/makeAppointments.jsx:23 | the sorted list is ordered by `doctor_name` and is a permutation of the fetched list |
| MakeAppointments.SortSorted | hospital/src/components/makeAppointments.jsx:23 | a list already in name order is returned unchanged, equal names included |
| MakeAppointments.MarkAvailable | hospital/src/components/makeAppointments.jsx:36-39 | same length, and each item is the fetched item with `isAvailable` set to true |
| MakeAppointments.MarkAvailableShape | hospital/src/components/makeAppointments.jsx:36-39 | every card shows available, the other fields stay in place, and marking again changes nothing |
| MakeAppointments.MatchesTerm | hospital/src/components/makeAppointments.jsx:47-50 | the search test; an empty term matches every doctor |
| MakeAppointments.FilteredDoctors | hospital/src/components/makeAppointments.jsx:47-50 | a doctor is listed exactly when the lower-cased term occurs in the lower-cased name or specialization, in the original order and multiplicity |
| MakeAppointments.EmptyTermKeepsAll | hospital/src/components/makeAppointments.jsx:47-50 | an empty term keeps every doctor |
| MakeAppointments.SearchIgnoresTermCase | hospital/src/components/makeAppointments.jsx:47-50 | terms equal up to ASCII case give the same list |
| MakeAppointments.DropdownView | hospital/src/components/makeAppointments.jsx:98-119 | the match list and 'No results found.' exclude each other, and both need `showDropdown` and a non-empty term |
| MakeAppointments.SpecializationOf | hospital/src/components/makeAppointments.jsx:162 | the first doctor with the selected name gives the specialization, and a later doctor of that name plays no part; with none, or an empty one, it is 'Unknown' |
| MakeAppointments.MakeAppointment.constructor | hospital/src/components/makeAppointments.jsx:8-15 | the initial state: no doctors, no selection, the drop-down and the slots hidden |
| MakeAppointments.MakeAppointment.View | hospital/src/components/makeAppointments.jsx:98-112 | a shown match list holds exactly the matching doctors |
| MakeAppointments.MakeAppointment.FetchDoctors | hospital/src/components/makeAppointments.jsx:19-30 | a successful fetch stores the doctors sorted by name; a failure keeps the list; nothing else changes |
| MakeAppointments.MakeAppointment.SearchInput | hospital/src/components/makeAppointments.jsx:90-93 | the term is stored and the drop-down opens |
| MakeAppointments.MakeAppointment.HandleDoctorSelect | hospital/src/components/makeAppointments.jsx:53-58 | selection and term become the doctor's name, the drop-down closes, and a successful availability fetch replaces the cards with all marked available |
| MakeAppointments.MakeAppointment.HandleAppointmentClick | hospital/src/components/makeAppointments.jsx:61-65 | the card is selected, its date becomes `availableDate`, and the slots are shown |
| MakeAppointments.MakeAppointment.Close | hospital/src/components/makeAppointments.jsx:169-172 | the slots are hidden and the selected card is reset to null |
| MakeAppointments.MakeAppointment.PickerProps | hospital/src/components/makeAppointments.jsx:158-168 | the slot picker gets the card's hospital and window (or nothing without a card), the selected doctor, its specialization and the date |
| HospitalPatientHistory.RecordsOfHospital | hospital/src/components/patientHistory.jsx:40 | exactly the records whose `hospital_name` is the page's hospital, in order |
| HospitalPatientHistory.KingsAppointments | hospital/src/components/patientHistory.jsx:75-77 | exactly the appointments of the hospital "Kings", each as often as it is listed, in order |
| HospitalPatientHistory.KingsIgnoresHospital | hospital/src/components/patientHistory.jsx:69-77 | the appointment list does not depend on the hospital passed in |
| HospitalPatientHistory.FieldsOf | hospital/src/components/patientHistory.jsx:120-128 | the request carries the form's six inputs and the page's hospital name |
| HospitalPatientHistory.Merge | hospital/src/components/patientHistory.jsx:133 | merging keeps the id and takes every other field from the update |
| HospitalPatientHistory.ReplaceById | hospital/src/components/patientHistory.jsx:132-134 | same length, each record with the id merged, every other record unchanged |
| HospitalPatientHistory.ReplaceByIdProperties | hospital/src/components/patientHistory.jsx:132-134 | ids stay in place, repeating the edit changes nothing, and an absent id leaves the list as it was |
| HospitalPatientHistory.ReplaceKeepsHospital | hospital/src/components/patientHistory.jsx:122 | an edit carrying the page's hospital keeps every record of that hospital |
| HospitalPatientHistory.PatientHistoryPage.constructor | hospital/src/components/patientHistory.jsx:7-16 | the initial state: no records, empty hospital name, loading, all modals closed |
| HospitalPatientHistory.PatientHistoryPage.FetchHospitalName | hospital/src/components/patientHistory.jsx:19-34 | the first hospital of the user names the page; otherwise the name is unchanged |
| HospitalPatientHistory.PatientHistoryPage.FetchAppointments | hospital/src/components/patientHistory.jsx:69-86 | a successful fetch keeps the "Kings" appointments; a failure changes nothing |
| HospitalPatientHistory.PatientHistoryPage.OnHospitalNameChanged | hospital/src/components/patientHistory.jsx:97-101 | with an empty name nothing is fetched; otherwise the hospital's records are stored and loading ends either way |
| HospitalPatientHistory.PatientHistoryPage.HandleViewAppointmentClick | hospital/src/components/patientHistory.jsx:103-106 | the view modal opens and no record is selected, since the button passes only its click event; nothing else changes |
| HospitalPatientHistory.PatientHistoryPage.HandleEditClick | hospital/src/components/patientHistory.jsx:108-111 | the record is selected and the edit modal opens |
| HospitalPatientHistory.PatientHistoryPage.HandleCreateClick | hospital/src/components/patientHistory.jsx:113-116 | the selection is cleared and the create modal opens |
| HospitalPatientHistory.PatientHistoryPage.HandleEditFormSubmit | hospital/src/components/patientHistory.jsx:118-140 | the update carries the page's hospital; only success rewrites the records with the selected id; with no selection nothing is sent; the edit modal always closes |
| HospitalPatientHistory.PatientHistoryPage.HandleCreateFormSubmit | hospital/src/components/patientHistory.jsx:142-162 | the record is sent with the page's hospital; success appends the returned record at the end, failure keeps the list; the create modal always closes |
| HospitalPatientHistory.PatientHistoryPage.CloseModals | hospital/src/components/patientHistory.jsx:238 | the close buttons close only their modal |
| Statistics.DayAppointments | hospital/src/components/statistics.jsx:47-53 | exactly the appointments of the hospital on the selected calendar day, in order |
| Statistics.ChartData | hospital/src/components/statistics.jsx:59-70 | the labels are the filtered times in order, and the data is a 1 for each |
| Statistics.ChartDataConcat | hospital/src/components/statistics.jsx:59-64 | charting two lists joined joins their labels and their data |
| Statistics.StatisticsPage.constructor | hospital/src/components/statistics.jsx:9-12 | the initial state: no appointments, empty hospital name, today selected |
| Statistics.StatisticsPage.Refilter | hospital/src/components/statistics.jsx:45-56 | while the hospital name is empty nothing is filtered; otherwise the list is that of the current inputs |
| Statistics.StatisticsPage.FetchHospital | hospital/src/components/statistics.jsx:15-30 | the first hospital of the user names the page; with no user, a failure or no match the name stays as it was |
| Statistics.StatisticsPage.FetchAppointments | hospital/src/components/statistics.jsx:33-42 | a successful fetch stores the appointments and re-filters; a failure changes nothing |
| Statistics.StatisticsPage.SelectDate | hospital/src/components/statistics.jsx:79-84 | the date is stored and the list is re-filtered |
| Statistics.StatisticsPage.Rendered | hospital/src/components/statistics.jsx:89-93 | the chart is drawn exactly when the filtered list is non-empty |
| MyAppointments.AppointmentsOf | client/src/components/myAppointments.jsx:41 | exactly the appointments under the patient's name, in order |
| MyAppointments.PatientNameAfter | client/src/components/myAppointments.jsx:12-31 | the first patient of the user gives the name; with no patient or a failed fetch it is '' |
| MyAppointments.MyAppointmentsPage.constructor | client/src/components/myAppointments.jsx:6-9 | the initial state: no appointments, empty name, loading |
| MyAppointments.MyAppointmentsPage.FetchPatientName | client/src/components/myAppointments.jsx:12-31 | the name becomes `PatientNameAfter`; nothing else changes |
| MyAppointments.MyAppointmentsPage.FetchAppointments | client/src/components/myAppointments.jsx:34-49 | loading ends whether or not the fetch succeeds, and success stores the patient's appointments |
| MyAppointments.MyAppointmentsPage.Mount | client/src/components/myAppointments.jsx:51-64 | with no user id loading ends and nothing is fetched; appointments are fetched only for a non-empty name; a user with no patient stays loading |
| PatientHistory.RecordsOf | client/src/components/patientHistory.jsx:36 | exactly the records under the patient's name, in order |
| PatientHistory.PatientHistoryPage.constructor | client/src/components/patientHistory.jsx:6-9 | the initial state: no records, empty name, loading |
| PatientHistory.PatientHistoryPage.FetchPatientName | client/src/components/patientHistory.jsx:12-27 | the first patient of the user gives the name; otherwise the name is unchanged |
| PatientHistory.PatientHistoryPage.FetchPatientRecords | client/src/components/patientHistory.jsx:30-43 | loading ends whether or not the fetch succeeds, and success stores the patient's records |
| PatientHistory.PatientHistoryPage.Mount | client/src/components/patientHistory.jsx:45-55 | the first patient of the user names the page, and otherwise the name stays empty; a non-empty name leads to the records fetch, which ends loading; without one, including with no user id, the page stays loading |
| HospitalDoctors.DoctorsAt | hospital/src/components/hospitalDoctors.jsx:34 | exactly the doctors of the hospital, in order |
| HospitalDoctors.ViewOf | hospital/src/components/hospitalDoctors.jsx:49-63 | an error wins; otherwise no hospital or no doctor shows 'Loading doctors...'; otherwise the table |
| HospitalDoctors.HospitalDoctorsPage.constructor | hospital/src/components/hospitalDoctors.jsx:6-9 | the initial state: no doctors, no hospital, no error |
| HospitalDoctors.HospitalDoctorsPage.Effect | hospital/src/components/hospitalDoctors.jsx:11-47 | without a hospital, its details are fetched: no match sets 'Hospital not found for this user.' and a failure sets the fetch error. With a hospital, its doctors are fetched instead |
| HospitalDoctors.HospitalDoctorsPage.Mount | hospital/src/components/hospitalDoctors.jsx:42-47 | the effect runs again once it has set the hospital, so the doctors are those of the found hospital; with none an error is shown |
| ProfileEditing.ViewOf | client/src/components/patientProfile.jsx:56-70 | an error wins; then a profile not yet loaded shows loading; otherwise the form (editing) or the saved profile |
| ProfileEditing.ProfileEditor.constructor | client/src/components/patientProfile.jsx:8-11 | the initial state: no profile, no error, not editing, empty form |
| ProfileEditing.ProfileEditor.Fetch | client/src/components/patientProfile.jsx:14-33 | the first profile of the user becomes both the profile and the form; no match or a failure sets the page's error and nothing else |
| ProfileEditing.ProfileEditor.HandleEditToggle | client/src/components/patientProfile.jsx:35-37 | `isEditing` is negated and nothing else changes |
| ProfileEditing.ProfileEditor.HandleChange | client/src/components/patientProfile.jsx:39-44 | one key of the form is overwritten; the others and the profile are unchanged |
| ProfileEditing.ProfileEditor.HandleUpdate | client/src/components/patientProfile.jsx:46-54 | the form is sent; success makes it the profile and ends editing; failure sets the error and keeps the profile |
| ProfileEditing.ProfileEditor.Cancel | client/src/components/patientProfile.jsx:238-241 | editing ends and the form keeps its edits |
| ProfileEditing.CancelKeepsEdits | hospital/src/components/hospitalProfile.jsx:128-135 | after an edit, cancel and re-entering edit mode, the cancelled edit is still shown |
| PatientProfile.NewPatientProfile | client/src/components/patientProfile.jsx:7-54 | a fresh page with the patient page's three messages |
| HospitalProfile.NewHospitalProfile | hospital/src/components/hospitalProfile.jsx:7-54 | a fresh page with the hospital page's three messages |

## Left out

- HTTP, `localStorage` and navigation are inputs or recorded fields. Each reply is a `Response` value, the stored user id is a parameter, and `navigate(...)` is a `navigatedTo` field. `alert` and `console` output are not modelled.
- The order of React updates is not modelled. Each effect is a method that runs when its dependencies change; the booking handler keeps only the fact that its duplicate test reads the list held before its re-fetch.
- Cross-session races, such as two patients booking one slot, are not modelled. The client has no interlock, and any uniqueness check lives in a backend that is not part of this model.
- The PDF receipt (`generateReport`, jsPDF) is not modelled, so neither is the case where it throws after the slot was marked booked. Display formatting (`toFixed`, `toLocaleTimeString`, `toISOString` slot keys) is not modelled either.
- JSX rendering and styling are not modelled, except the precedence of error, loading and content views.
- The static pages are not modelled: both navigation bars, both side bars, the patient home page and both `App.jsx` route tables.
- The hospital portal's `timeSlotSelection` component is not part of this model. The client version stands in for it.
- The hospital patient-history page's fetches of patients and doctors are not modelled. They only fill the form's select options.
- The hospital patient-history filter reads the key `hospital_name` on appointments, while the booking and statistics pages use `hospitalName`. The model reads one `hospitalName` field for both.
- TimeSlotSelection.GenerateTimeSlots: times are minutes after midnight, so parsing "HH:MM" into `Date` objects and the time zone are not modelled.
- Statistics.DayAppointments: `toDateString` equality is equality of (year, month, day) triples. Time zones are not modelled.
- TimeSlotSelection.Booking.ConfirmAppointment: charges are integers, not floating-point numbers. The payment date `today` is a parameter, and an empty payment list is covered by `PaymentLookupFailed`.
- HospitalAdd.ParseCharge: `parseFloat` is modelled on text of digits and '.', which is all the charge field can hold. Leading white space, signs, exponents and `Infinity` are not read. The number is a Dafny `real`, not a double.
- HospitalAdd.HospitalForm.HandleChange: the reset-if-negative test `parseFloat(newValue) < 0` and the check in `addHospital` are both modelled as "starts with '-'". That holds whenever `parseFloat` is negative on text without leading white space, and the stored charge never has either.
- PatientAdd.CheckPatient: the age is read as an integer literal (optional '-', then digits); anything else reads as NaN. So `'2.5'`, `' 7'` and `'12abc'` are not converted the way `Number` and `parseInt` would convert them.
- MakeAppointments.SortByName: `localeCompare` is modelled as code-point order. Locale collation rules are not modelled.
- MakeAppointments.FilteredDoctors: `toLowerCase` maps only ASCII letters. Other Unicode case mappings are not modelled.
- HospitalAdd.SanitiseName: `toUpperCase` maps only ASCII letters. Only ASCII letters survive the filter, so nothing is lost.
- HospitalAdd.HospitalForm.constructor: the user id that the component keeps inside `hospitalData` is a separate constant field, because no input of the form is named `userId`.
- Entities.PatientOfUser: the stored user id is an `Option<int>`, with `None` for no id. A non-numeric stored id, for which `parseInt` gives NaN, is not modelled.
- HospitalPatientHistory.PatientHistoryPage.HandleViewAppointmentClick: the "View Appointments" button at `hospital/src/components/patientHistory.jsx:176` passes its click event, which the page stores as `selectedRecord`. The model stores no record (`None`) instead. Nothing reads that value: the view modal lists `appointments`, and the edit form is opened only by `handleEditClick`, which selects a record first.
- Entities.Appointment: `patientName` is a string, so an appointment listed with a null patient name is not modelled. That includes one filed while the booking page's patient name was still null. In the source, `appointment.patientName === patientData` at `client/src/components/timeSlotSelection.jsx:126` then matches null against null. The model's `HasSameDayAppointment` never matches a name that is not loaded.
- ProfileEditing.ProfileEditor: a profile is a map from keys to strings. The numbers the fetched patient and hospital objects carry (`user_id`, the ids, `age`, `hospital_charge`) become strings, and the distinction between numbers and text in the saved object is not modelled.
