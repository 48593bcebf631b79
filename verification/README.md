# Hospital management: a verified model of the record rules

This project models the business rules of an Odoo hospital-management module in Dafny:

- patients and their visit workflow;
- appointments: when they start and end, the three scheduling constraints (in the future,
  inside clinic hours, no double-booking of a doctor), the seven-state workflow and the
  daily reminder sweep;
- bills: line subtotals, discount and tax, payment status, the bounded-value constraints
  and the workflow;
- laboratory tests: result classification, the result-date rule and the expansion of a
  test type into result lines;
- prescriptions and their medicine-line checks;
- medical records;
- doctors' capacity and availability;
- the reference every record receives from its sequence on creation.

One Dafny module stands for each model file:
`Patients`, `Appointments`, `Billing`, `LabTests`, `Prescriptions`, `MedicalRecords` and
`Doctors`. Two modules are shared:

- `References` holds the reference-assignment rule that every `create` applies. It also
  holds an abstract per-model sequence counter.
- `Wrappers` holds `Option` and `Outcome`.

A record whose button actions change its fields in place is a Dafny `class`:
`Patient`, `Appointment`, `Bill`, `LabTest`, `Prescription`, `MedicalRecord`.

- Each action is a method whose `modifies` clause names exactly the fields it writes, so
  nothing else changes.
- Each module also has a pure `Step(state, action)` function. Every action method ensures
  `state == Step(old(state), X)`.
- The lemmas about `Step` say what the source promises: which state each button needs
  (both directions), that pressing a button twice is the same as pressing it once, and
  which states only a reset leaves.

A button pressed outside its state is a silent no-op, never an error, exactly as in the
source.

Validation errors are modelled as an `Outcome` (`Pass` or `Fail(error)`). A failed write
rolls back, so the methods that can fail ensure the record is unchanged on `Fail`.

Modelling decisions that follow the framework rather than the file text:

- **Search.** An ORM search is a filter over a sequence of rows in the model's default
  order. The default `active` filter applies, so an archived (inactive) appointment
  neither blocks a doctor nor receives a reminder. A domain comparison against an unset
  datetime never matches.
- **Time.** Time is exact. A date is a day number. `appointment_time` and `duration` are
  hours as reals. A timestamp is real minutes since day 0. `int()` on a float truncates
  toward zero, and `Appointments.Trunc` writes that out.
- **Lab test completion can fail.** Completing a lab test writes `result_date`, which
  re-runs the result-date constraint. A test dated after today therefore cannot be
  completed with an empty result date: the write raises and the completion rolls back.
  `LabTests.LabTest.ActionComplete` returns that error.
- **Test-type lines are appended.** Assigning a list of create commands to a one2many
  field keeps the lines already there, so choosing a test type appends one line per
  parameter after the existing lines. The lines are exactly one per parameter when the
  test had none.
- **Reset skips the double-booking check.** The workflow buttons write only `state`,
  which is not among the fields that trigger the double-booking check. Resetting a
  cancelled appointment can therefore bring back an overlap that was accepted while the
  slot was free. `Appointments.ResetDoesNotRecheckAvailability` exhibits one.
- **Prescription lines after confirmation.** The prescription-level check only guards
  the confirmed state. A dispensed prescription may lose all its lines
  (`Prescriptions.LinesRuleGuardsOnlyConfirmed`).

## Model

| member | source | states |
|---|---|---|
| References.ReferenceFor | models/patient.py:207-216 | a supplied reference other than `New` is kept; a missing or `New` reference becomes the sequence value, or stays `New` when the sequence yields nothing |
| References.Sequence.NextByCode | models/patient.py:212-214 | a configured sequence hands out the code of its current number and advances by one; an unconfigured one yields nothing and does not move |
| References.DigitsInjective | models/patient.py:212-214 | distinct counter values print differently, so sequence codes never repeat |
| References.Sequence.CodesDistinct | models/medical_record.py:168-171 | distinct counter values give distinct codes of one sequence |
| References.PlannedDistinct | models/medical_record.py:164-172 | in one batch, two entries that both need a reference are planned different references |
| References.AssignReferences | models/medical_record.py:164-172 | `create` over a batch: one reference per entry by the rule above, the counter advances once per entry needing a reference, and generated references are pairwise distinct |
| Patients.StepGuards | models/patient.py:172-204 | waiting fires exactly from new, consultation from waiting, done from consultation, cancel from every state but done and cancel; reset always gives new |
| Patients.StepIdempotent | models/patient.py:172-204 | pressing any patient button twice equals pressing it once |
| Patients.FinalStatesOnlyReset | models/patient.py:186-204 | done and cancelled patients change only through the reset |
| Patients.ForwardOnly | models/patient.py:172-198 | every button but the reset moves a patient forward along new, waiting, consultation, done, or not at all |
| Patients.IsChild | models/patient.py:153-160 | an age of zero is not a child; any other age is a child exactly when below 18 |
| Patients.IsChildExactly | models/patient.py:153-160 | the child flag holds exactly for negative ages and ages 1 to 17 |
| Patients.Patient.constructor | models/patient.py:83-92 | a new patient is in state new with no appointments |
| Patients.Patient.AppointmentCount | models/patient.py:162-166 | the count is the number of distinct linked appointments, zero exactly when there are none |
| Patients.Patient.ActionWaiting | models/patient.py:172-177 | new becomes waiting; any other state is unchanged |
| Patients.Patient.ActionConsultation | models/patient.py:179-184 | waiting becomes consultation; any other state is unchanged |
| Patients.Patient.ActionDone | models/patient.py:186-191 | consultation becomes done; any other state is unchanged |
| Patients.Patient.ActionCancel | models/patient.py:193-198 | new, waiting and consultation become cancel; done and cancel are unchanged |
| Patients.Patient.ActionResetToNew | models/patient.py:200-204 | every state becomes new |
| Appointments.Trunc | models/appointment.py:178-179 | Python `int()` truncates toward zero: a non-negative value lies in [n, n + 1), a negative one in (n - 1, n], with n never further from zero than the value |
| Appointments.StartOf | models/appointment.py:172-189 | the start is set exactly when the date is set and the time is non-zero |
| Appointments.StartIsWholeMinutes | models/appointment.py:172-189 | for a positive time the start is the date's midnight plus the time truncated to whole minutes |
| Appointments.EndOf | models/appointment.py:191-198 | the end is set exactly when the start is set and the duration is non-zero; it lies `duration` hours after the start, and after it exactly when the duration is positive |
| Appointments.ColorOf | models/appointment.py:200-215 | red exactly for cancelled, green for done, blue in progress, yellow confirmed, orange exactly for emergencies in the remaining states, otherwise the default colour |
| Appointments.CheckInFuture | models/appointment.py:238-246 | rejected exactly when the start is set and earlier than now |
| Appointments.CheckClinicHours | models/appointment.py:248-256 | rejected exactly when the time is non-zero and outside [8.0, 20.0) |
| Appointments.AcceptedTimeStartsInOpeningHours | models/appointment.py:248-256 | an accepted non-zero time starts between minute 480 (08:00) and minute 1199 (19:59) of its day |
| Appointments.Overlapping | models/appointment.py:262-268 | the search result holds exactly the rows that block the record, the first of them before any other blocking row |
| Appointments.CheckDoctorAvailability | models/appointment.py:258-276 | a record with a start that is not cancelled is rejected exactly when some other active, non-cancelled, non-no-show appointment of its doctor overlaps its half-open interval; the error names the first such appointment; no-show records are checked |
| Appointments.Validate | models/appointment.py:238-276 | passes exactly when the future, clinic-hours and availability checks all pass; a failure is the failure of one of the three checks |
| Appointments.BackToBackNeverConflict | models/appointment.py:268-269 | an appointment ending exactly when another starts never conflicts with it, in either direction |
| Appointments.BlocksSymmetric | models/appointment.py:262-268 | between two occupying appointments of one doctor the overlap test is symmetric |
| Appointments.AcceptedOverlapsNothing | models/appointment.py:258-276 | an accepted appointment overlaps no occupying appointment of its doctor |
| Appointments.AcceptedAppointmentKeepsNoDoubleBooking | models/appointment.py:258-276 | creating an appointment that passed the check keeps the table free of double-bookings |
| Appointments.AcceptedUpdateKeepsNoDoubleBooking | models/appointment.py:258-276 | rewriting an existing appointment's doctor, date, time or duration with values that pass the check keeps the table free of double-bookings |
| Appointments.StepGuards | models/appointment.py:296-347 | confirm, arrive, start, complete and no-show fire exactly from draft, confirmed, arrived, in progress and confirmed; cancel from every state but done and cancelled (a no-show included); reset always gives draft |
| Appointments.StepIdempotent | models/appointment.py:296-347 | pressing any appointment button twice equals pressing it once |
| Appointments.FinalStatesOnlyReset | models/appointment.py:319-347 | done and cancelled appointments change only through the reset |
| Appointments.ResetDoesNotRecheckAvailability | models/appointment.py:258 | a pair of appointments free of double-booking becomes double-booked when the cancelled one is reset to draft |
| Appointments.RemindersDue | models/appointment.py:379-382 | the search yields exactly the active confirmed appointments dated tomorrow |
| Appointments.RemindedExactlyTheDue | models/appointment.py:376-400 | every appointment due tomorrow is reminded, and only those |
| Appointments.SendDailyReminders | models/appointment.py:376-400 | one reminder per due appointment in search order; the returned count is the number of due appointments |
| Appointments.Appointment.constructor | models/appointment.py:61-158 | a new appointment is a one-hour draft consultation of normal priority, active |
| Appointments.Appointment.OnchangeAppointmentType | models/appointment.py:227-232 | the emergency type sets very high priority and half an hour; other types change nothing |
| Appointments.Appointment.ActionConfirm | models/appointment.py:296-303 | draft becomes confirmed; any other state is unchanged |
| Appointments.Appointment.ActionArrived | models/appointment.py:305-310 | confirmed becomes arrived; any other state is unchanged |
| Appointments.Appointment.ActionStart | models/appointment.py:312-317 | arrived becomes in progress; any other state is unchanged |
| Appointments.Appointment.ActionDone | models/appointment.py:319-327 | in progress becomes done and the patient's consultation finishes; a patient in another state, and any appointment not in progress, is untouched |
| Appointments.Appointment.ActionCancel | models/appointment.py:329-334 | every state but done and cancelled becomes cancelled |
| Appointments.Appointment.ActionNoShow | models/appointment.py:336-341 | confirmed becomes no-show; any other state is unchanged |
| Appointments.Appointment.ActionResetToDraft | models/appointment.py:343-347 | every state becomes draft |
| Appointments.CompleteAll | models/appointment.py:319-327 | on a set of appointments each one in progress becomes done, and a patient in consultation becomes done exactly when one of its appointments in the set was in progress |
| Billing.CheckLine | models/billing.py:426-433 | a line passes exactly with positive quantity and non-negative price; the quantity is reported first |
| Billing.AcceptedLineSubtotal | models/billing.py:420-433 | an accepted line has a non-negative subtotal, positive when priced |
| Billing.SumSubtotalsAppend | models/billing.py:196-197 | the subtotal of two batches of lines is the sum of their subtotals |
| Billing.AcceptedLinesSumNonNegative | models/billing.py:196-197 | accepted lines sum to a non-negative subtotal |
| Billing.ComputeAmounts | models/billing.py:192-216 | subtotal is the sum of line subtotals; discount is d% of the subtotal; tax is t% of the subtotal after discount; total is subtotal minus discount plus tax, equal to subtotal x (100 - d) x (100 + t) / 10000; balance is total minus paid |
| Billing.PercentBounded | models/billing.py:199-208 | a percentage in [0, 100] of a non-negative amount lies between zero and that amount |
| Billing.AcceptedAmountsBounded | models/billing.py:192-216 | with accepted lines and percentages the discount is at most the subtotal, the tax at most the discounted amount, the total between zero and twice the subtotal |
| Billing.WorkedExample | models/billing.py:192-216 | two units at 50 with 10% discount and 5% tax give 100, 10, 4.5 and 94.5 |
| Billing.PaymentStatusOf | models/billing.py:218-229 | unpaid exactly when total or paid is not positive, paid exactly when 0 < total <= paid, partial exactly when 0 < paid < total; never refunded |
| Billing.PaymentStatusMonotone | models/billing.py:218-229 | paying more never lowers the payment status |
| Billing.CheckPaidAmount | models/billing.py:268-275 | rejected exactly when paid exceeds the total |
| Billing.CheckDiscountPercent | models/billing.py:277-284 | accepted exactly inside [0, 100] |
| Billing.CheckTaxPercent | models/billing.py:286-293 | accepted exactly inside [0, 100] |
| Billing.AcceptedBalanceNonNegative | models/billing.py:214-216 | an accepted paid amount leaves a non-negative balance, zero exactly when the status is paid (positive total) |
| Billing.StepGuards | models/billing.py:313-356 | confirm fires exactly from draft, mark-as-paid from confirmed, cancel from draft or confirmed; reset always gives draft |
| Billing.StepIdempotent | models/billing.py:313-356 | pressing any bill button twice equals pressing it once |
| Billing.FinalStatesOnlyReset | models/billing.py:337-356 | paid and cancelled bills change only through the reset |
| Billing.Bill.constructor | models/billing.py:80-175 | a new bill is a draft with no discount, no tax and nothing paid, and meets every bill constraint when its lines pass theirs |
| Billing.Bill.ActionConfirm | models/billing.py:313-320 | a draft without lines raises and stays draft; a draft with lines becomes confirmed; other states are unchanged |
| Billing.Bill.ActionMarkAsPaid | models/billing.py:337-343 | a confirmed bill gets paid equal to total and becomes paid, owing nothing, status paid for a positive total, constraints kept; other bills are unchanged |
| Billing.Bill.ActionCancel | models/billing.py:345-350 | draft and confirmed become cancelled; other states are unchanged |
| Billing.Bill.ActionResetToDraft | models/billing.py:352-356 | every state becomes draft |
| Billing.Bill.OnchangeAppointment | models/billing.py:241-255 | picking an appointment on a bill without lines adds one consultation line at a positive fee; a bill with lines keeps them |
| Billing.Bill.OnchangePaidAmount | models/billing.py:257-262 | a paid amount covering a positive total moves a confirmed bill to paid, with status paid; otherwise the state is kept |
| LabTests.AnyCritical | models/lab_test.py:320 | true exactly when some line is critical |
| LabTests.AnyAbnormal | models/lab_test.py:319 | true exactly when some line is abnormal |
| LabTests.Classify | models/lab_test.py:313-327 | critical exactly when some line is critical; abnormal exactly when none is critical and some is abnormal; normal exactly when no line is either |
| LabTests.ClassifyConcat | models/lab_test.py:313-327 | classifying two batches of lines together gives the worse of their classifications |
| LabTests.AddingLineNeverLowers | models/lab_test.py:313-327 | adding a result line never lowers the classification |
| LabTests.CheckResultDate | models/lab_test.py:231-239 | rejected exactly when a result date is set and earlier than the test date |
| LabTests.StepGuards | models/lab_test.py:259-296 | request fires exactly from draft, start from requested, complete from in progress, cancel from draft or requested; reset always gives draft |
| LabTests.StepIdempotent | models/lab_test.py:259-296 | pressing any lab-test button twice equals pressing it once |
| LabTests.StartedTestsCannotBeCancelled | models/lab_test.py:285-290 | tests in progress or completed cannot be cancelled |
| LabTests.LabTest.constructor | models/lab_test.py:143-152 | a new test is a draft without result date, lines, status or attachments |
| LabTests.LabTest.AttachmentCount | models/lab_test.py:190-194 | the count is the number of attachments |
| LabTests.LabTest.ComputeResultStatus | models/lab_test.py:313-327 | with lines the status becomes their classification; without lines it is kept |
| LabTests.LabTest.ActionRequest | models/lab_test.py:259-264 | draft becomes requested; any other state is unchanged |
| LabTests.LabTest.ActionStartTest | models/lab_test.py:266-271 | requested becomes in progress; any other state is unchanged |
| LabTests.LabTest.ActionComplete | models/lab_test.py:273-283 | a test in progress becomes completed, an empty result date becomes today and an existing one is kept, and the status is reclassified; it fails, changing nothing, exactly when filling the date would break the result-date rule; other states are unchanged |
| LabTests.LabTest.ActionCancel | models/lab_test.py:285-290 | draft and requested become cancelled; other states are unchanged |
| LabTests.LabTest.ActionResetToDraft | models/lab_test.py:292-296 | every state becomes draft |
| LabTests.LabTest.OnchangeTestType | models/lab_test.py:213-225 | a type with parameters appends one line per parameter, in order, copying name, unit, normal range and sequence, after the existing lines; otherwise the lines are unchanged |
| Prescriptions.CheckLine | models/prescription.py:373-380 | a line passes exactly with positive duration and quantity; the duration is reported first |
| Prescriptions.FirstBadLine | models/prescription.py:373-380 | finds the first failing line, and none exactly when every line passes |
| Prescriptions.CheckMedicineLines | models/prescription.py:195-202 | rejected exactly when confirmed with no lines |
| Prescriptions.StepGuards | models/prescription.py:222-256 | confirm fires exactly from draft, dispense from confirmed, complete from dispensed, cancel from draft or confirmed; reset always gives draft |
| Prescriptions.StepIdempotent | models/prescription.py:222-256 | pressing any prescription button twice equals pressing it once |
| Prescriptions.DispensedCannotBeCancelled | models/prescription.py:245-250 | dispensed and completed prescriptions cannot be cancelled |
| Prescriptions.LinesRuleGuardsOnlyConfirmed | models/prescription.py:195-202 | the lines-present rule guards only the confirmed state: in every other state, any lines that pass their own check are accepted, including none |
| Prescriptions.Prescription.constructor | models/prescription.py:131-140 | a new prescription is a draft without medicines |
| Prescriptions.Prescription.MedicineCount | models/prescription.py:157-161 | the count is the number of medicine lines |
| Prescriptions.Prescription.SetLines | models/prescription.py:195-202 | new lines are stored exactly when each passes its check and a confirmed prescription keeps at least one; a refused write leaves the lines |
| Prescriptions.Prescription.ActionConfirm | models/prescription.py:222-229 | a draft without lines raises and stays draft; a draft with lines becomes confirmed; other states are unchanged; the constraints are kept |
| Prescriptions.Prescription.ActionDispense | models/prescription.py:231-236 | confirmed becomes dispensed; other states are unchanged; the constraints are kept |
| Prescriptions.Prescription.ActionComplete | models/prescription.py:238-243 | dispensed becomes completed; other states are unchanged; the constraints are kept |
| Prescriptions.Prescription.ActionCancel | models/prescription.py:245-250 | draft and confirmed become cancelled; other states are unchanged; the constraints are kept |
| Prescriptions.Prescription.ActionResetToDraft | models/prescription.py:252-256 | every state becomes draft; the constraints are kept |
| MedicalRecords.StepGuards | models/medical_record.py:175-193 | confirm fires exactly from draft, archive from confirmed; reset always gives draft |
| MedicalRecords.StepIdempotent | models/medical_record.py:175-193 | pressing any record button twice equals pressing it once |
| MedicalRecords.ArchivedOnlyAfterConfirm | models/medical_record.py:139-193 | every sequence of buttons that takes a draft to archived contains a confirm |
| MedicalRecords.MedicalRecord.constructor | models/medical_record.py:140-147 | a new record is a draft without attachments |
| MedicalRecords.MedicalRecord.AttachmentCount | models/medical_record.py:157-161 | the count is the number of attachments |
| MedicalRecords.MedicalRecord.ActionConfirm | models/medical_record.py:175-180 | draft becomes confirmed; any other state is unchanged |
| MedicalRecords.MedicalRecord.ActionArchiveRecord | models/medical_record.py:182-187 | confirmed becomes archived; any other state is unchanged |
| MedicalRecords.MedicalRecord.ActionResetToDraft | models/medical_record.py:189-193 | every state becomes draft |
| Doctors.PatientCount | models/doctor.py:97-101 | the count is the number of assigned patients |
| Doctors.AppointmentCount | models/doctor.py:103-107 | the count is the number of appointments |
| Doctors.AvailabilityOf | models/doctor.py:109-118 | busy exactly at or above capacity, available exactly below it, never on leave |
| Doctors.CapacityWarning | models/doctor.py:120-130 | a warning quoting the capacity is returned exactly at or above capacity |
| Doctors.CheckMaxPatients | models/doctor.py:132-141 | rejected exactly when the patients exceed the maximum |
| Doctors.WarningIffBusy | models/doctor.py:109-130 | the warning appears exactly when the doctor is busy |
| Doctors.AcceptedBusyMeansFull | models/doctor.py:109-141 | on an accepted doctor, busy means exactly at capacity |
| Doctors.NewDoctorAvailable | models/doctor.py:48-52 | any doctor with a positive capacity (the default 50 among them) and no patients is available and accepted |
| Doctors.AssignOneMore | models/doctor.py:109-141 | one more patient is accepted for an available doctor and refused for a full one |
| Doctors.AvailabilityMonotone | models/doctor.py:109-118 | lowering the maximum keeps a busy doctor busy; removing patients keeps an available doctor available |

## Left out

- Emails: sending confirmation, reminder and welcome emails is a framework call and is left
  out. A failed send is swallowed by the source, so no modelled outcome depends on it.
- `message_post` chatter notes and the `ir.logging` entry of the reminder sweep are
  framework I/O.
- The patient's age from the date of birth uses library date arithmetic (`relativedelta`);
  the age is an input of the model.
- The pediatric-doctor suggestion on the patient is a database query. The onchanges that
  copy the patient, doctor or diagnosis from a related record are plain field copies.
  Both are left out.
- Window actions (`action_view_*`, `action_register_payment`, `action_print_prescription`),
  the dashboard model, the JavaScript dashboard and the manifest are user-interface
  plumbing and configuration.
- Floating point: times, durations and money are exact reals. Start times are whole
  minutes, because the source truncates them; end times are the start plus the exact
  duration, and no rounding of the stored datetime is modelled. IEEE rounding is not
  modelled.
- `ir.sequence` internals: a sequence is a counter plus a prefix, with decimal numbering.
  Padding, date-based prefixes and concurrent allocation are not modelled.
- Deletion and the `ondelete` cascade and restrict rules are not modelled.
- Other framework behaviour is left out: access rights, multi-company, and the order in
  which constraints of different models run in one transaction.
- Recordsets: an action over several records is modelled per record, except
  `action_done`, whose patient cascade makes the multi-record form
  (`Appointments.CompleteAll`) worth stating. A `ValidationError` midway through a
  multi-record confirm would roll back the earlier records too. That rollback is not
  modelled.
- `Appointments.Validate`: the framework re-runs only the constraints whose trigger fields a
  write touches (date or time for the future check, time for clinic hours, doctor, start
  or duration for availability), and recomputing the stored start inside one check can
  run another first. The model states the conjunction of the three checks, not which of
  them a given write runs or in what order.
- `Doctors.CheckMaxPatients`: the framework re-runs this check only when the doctor's own
  patient list or maximum is written. Assigning a doctor from the patient side does not
  trigger it. The model states the check itself, not when it runs.
- `Prescriptions.Prescription.SetLines`: when several lines fail, the model names the
  first failing line's error. The order in which the framework checks new lines is not
  modelled.
