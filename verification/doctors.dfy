/** Doctors: patient count, availability derived from capacity, the capacity warning and
    the capacity constraint. */
module Doctors {
  import opened Wrappers

  datatype Availability = Available | Busy | OnLeave

  /** The capacity warning the form shows: title and the capacity it quotes. */
  datatype Warning = MaximumPatientsReached(maxPatients: int)

  datatype Error = TooManyPatients(maxPatients: int)

  /** A doctor as the capacity rules see it: the configured maximum (default 50), the ids
      of the patients assigned to them and the ids of their appointments. */
  datatype Doctor = Doctor(maxPatients: int, patientIds: set<nat>, appointmentIds: set<nat>)

  const DEFAULT_MAX_PATIENTS: int := 50

  /** The number of patients assigned. */
  function PatientCount(d: Doctor): (n: nat)
    ensures n == |d.patientIds|
    ensures n == 0 <==> d.patientIds == {}
  {
    |d.patientIds|
  }

  /** The number of appointments with the doctor. */
  function AppointmentCount(d: Doctor): (n: nat)
    ensures n == |d.appointmentIds|
    ensures n == 0 <==> d.appointmentIds == {}
  {
    |d.appointmentIds|
  }

  /** Busy at or above capacity, available otherwise; never on leave. */
  function AvailabilityOf(d: Doctor): (a: Availability)
    ensures a == Busy <==> PatientCount(d) >= d.maxPatients
    ensures a == Available <==> PatientCount(d) < d.maxPatients
    ensures a != OnLeave
  {
    if PatientCount(d) >= d.maxPatients then Busy
    else if PatientCount(d) > 0 then Available
    else Available
  }

  /** The warning shown when the patient count changes: exactly at or above capacity. */
  function CapacityWarning(d: Doctor): (w: Option<Warning>)
    ensures w.Some? <==> PatientCount(d) >= d.maxPatients
    ensures w.Some? ==> w.value.maxPatients == d.maxPatients
  {
    if PatientCount(d) >= d.maxPatients then Some(MaximumPatientsReached(d.maxPatients)) else None
  }

  /** Having strictly more patients than the maximum is refused. */
  function CheckMaxPatients(d: Doctor): (o: Outcome<Error>)
    ensures o.Fail? <==> PatientCount(d) > d.maxPatients
    ensures o.Fail? ==> o.error.maxPatients == d.maxPatients
  {
    if |d.patientIds| > d.maxPatients then Fail(TooManyPatients(d.maxPatients)) else Pass
  }

  /** The warning appears exactly when the doctor is shown as busy. */
  lemma WarningIffBusy(d: Doctor)
    ensures CapacityWarning(d).Some? <==> AvailabilityOf(d) == Busy
  {
  }

  /** On an accepted doctor, busy means exactly full: the warning fires at capacity, one
      patient before the constraint would refuse. */
  lemma AcceptedBusyMeansFull(d: Doctor)
    requires CheckMaxPatients(d).Pass?
    ensures AvailabilityOf(d) == Busy <==> PatientCount(d) == d.maxPatients
  {
  }

  /** A doctor without patients and with a positive capacity (the default of 50 among
      them) is available and accepted, whatever their appointments. */
  lemma NewDoctorAvailable(maxPatients: int, appointmentIds: set<nat>)
    requires maxPatients > 0
    ensures AvailabilityOf(Doctor(maxPatients, {}, appointmentIds)) == Available
    ensures CheckMaxPatients(Doctor(maxPatients, {}, appointmentIds)).Pass?
  {
  }

  /** Assigning one more patient to an available doctor is always accepted; assigning one to
      a doctor that is already full is refused. */
  lemma AssignOneMore(d: Doctor, p: nat)
    requires p !in d.patientIds
    ensures AvailabilityOf(d) == Available ==> CheckMaxPatients(d.(patientIds := d.patientIds + {p})).Pass?
    ensures PatientCount(d) >= d.maxPatients ==> CheckMaxPatients(d.(patientIds := d.patientIds + {p})).Fail?
  {
    assert |d.patientIds + {p}| == |d.patientIds| + 1;
  }

  /** Lowering the maximum never turns a busy doctor available, and removing patients never
      turns an available doctor busy. */
  lemma AvailabilityMonotone(d: Doctor, max: int, kept: set<nat>)
    requires max <= d.maxPatients && kept <= d.patientIds
    ensures AvailabilityOf(d) == Busy ==> AvailabilityOf(d.(maxPatients := max)) == Busy
    ensures AvailabilityOf(d) == Available ==> AvailabilityOf(d.(patientIds := kept)) == Available
  {
    assert |kept| <= |d.patientIds| by { SubsetCardinality(kept, d.patientIds); }
  }

  /** A subset has no more elements than its superset. */
  lemma {:induction false} SubsetCardinality(a: set<nat>, b: set<nat>)
    requires a <= b
    ensures |a| <= |b|
    decreases |b|
  {
    if a != {} {
      var x :| x in a;
      SubsetCardinality(a - {x}, b - {x});
    }
  }
}
