/** Appointments: timestamps from a date and a fractional hour, the three scheduling
    constraints (in the future, inside clinic hours, no double-booking of a doctor),
    the seven-state workflow with its cascade into the patient, and the daily reminder sweep.

    Time is exact: a date is a day number, `appointment_time` and `duration` are hours as
    reals, and a timestamp is a real number of minutes since day 0 at midnight. */
module Appointments {
  import opened Wrappers
  import Patients

  datatype State = Draft | Confirmed | Arrived | InProgress | Done | Cancelled | NoShow

  datatype AppointmentType = Consultation | Followup | Checkup | Emergency

  /** The selection values '0' (normal), '1' (low), '2' (high) and '3' (very high). */
  datatype Priority = Normal | Low | High | VeryHigh

  /** The validation errors an appointment write can raise; a double-booking names the
      conflicting appointment's reference. */
  datatype Error = InThePast | OutsideClinicHours | DoctorUnavailable(conflicting: string)

  const MINUTES_PER_DAY: int := 1440
  const OPENING_HOUR: real := 8.0
  const CLOSING_HOUR: real := 20.0

  // ------------------------------------------------------------------
  // Timestamps
  // ------------------------------------------------------------------

  /** Python's `int()` on a float: truncation toward zero. */
  function Trunc(x: real): (n: int)
    ensures 0.0 <= x ==> 0 <= n && n as real <= x < n as real + 1.0
    ensures x < 0.0 ==> n <= 0 && n as real - 1.0 < x <= n as real
  {
    if 0.0 <= x then x.Floor else -((-x).Floor)
  }

  /** The appointment's start: midnight of its date plus the whole hours of its time plus
      the whole minutes of the fractional part. Unset when the date is unset or the time is
      zero (a falsy value). */
  function StartOf(date: Option<int>, time: real): (start: Option<real>)
    ensures start.Some? <==> date.Some? && time != 0.0
  {
    if date.Some? && time != 0.0 then
      var hours := Trunc(time);
      var minutes := Trunc((time - hours as real) * 60.0);
      Some((date.value * MINUTES_PER_DAY + hours * 60 + minutes) as real)
    else None
  }

  /** For a positive time the start is the date's midnight plus the time truncated to
      whole minutes: splitting into hours and minutes loses nothing else. */
  lemma StartIsWholeMinutes(day: int, time: real)
    requires 0.0 < time
    ensures StartOf(Some(day), time) == Some((day * MINUTES_PER_DAY + (time * 60.0).Floor) as real)
  {
    var h := time.Floor;
    var m := ((time - h as real) * 60.0).Floor;
    assert h as real <= time < h as real + 1.0;
    assert m as real <= (time - h as real) * 60.0 < m as real + 1.0;
    assert (h * 60 + m) as real <= time * 60.0 < (h * 60 + m) as real + 1.0;
    assert (time * 60.0).Floor == h * 60 + m;
  }

  /** The end: start plus the duration. Unset when the start is unset or the duration is
      zero. */
  function EndOf(start: Option<real>, duration: real): (end: Option<real>)
    ensures end.Some? <==> start.Some? && duration != 0.0
    ensures end.Some? ==> (end.value > start.value <==> duration > 0.0)
    ensures end.Some? ==> end.value - start.value == duration * 60.0
  {
    if start.Some? && duration != 0.0 then Some(start.value + duration * 60.0) else None
  }

  // ------------------------------------------------------------------
  // Calendar colour and the type onchange
  // ------------------------------------------------------------------

  /** The calendar colour: red for cancelled, green for done, blue in progress, yellow
      confirmed; otherwise orange for emergencies and the default colour for the rest. */
  function ColorOf(state: State, kind: AppointmentType): (color: int)
    ensures color in {0, 1, 4, 7, 9, 10}
    ensures color == 1 <==> state == Cancelled
    ensures color == 10 <==> state == Done
    ensures color == 7 <==> state == InProgress
    ensures color == 4 <==> state == Confirmed
    ensures color == 9 <==> kind == Emergency && (state.Draft? || state.Arrived? || state.NoShow?)
  {
    if state == Cancelled then 1
    else if state == Done then 10
    else if state == InProgress then 7
    else if state == Confirmed then 4
    else if kind == Emergency then 9
    else 0
  }

  // ------------------------------------------------------------------
  // The appointment table and the constraints
  // ------------------------------------------------------------------

  /** One stored appointment, as the constraints and the reminder search see it. */
  datatype AppointmentRow = AppointmentRow(
    id: nat,
    reference: string,
    doctor: nat,
    date: Option<int>,
    time: real,
    duration: real,
    state: State,
    active: bool)
  {
    function Start(): Option<real> { StartOf(date, time) }
    function End(): Option<real> { EndOf(Start(), duration) }
  }

  /** The start must not lie before `now`; an unset start is not checked. */
  function CheckInFuture(start: Option<real>, now: real): (o: Outcome<Error>)
    ensures o.Fail? <==> start.Some? && start.value < now
    ensures o.Fail? ==> o.error == InThePast
  {
    if start.Some? && start.value < now then Fail(InThePast) else Pass
  }

  /** A set time must lie in [8.0, 20.0); the zero time (falsy) is not checked. */
  function CheckClinicHours(time: real): (o: Outcome<Error>)
    ensures o.Fail? <==> time != 0.0 && (time < OPENING_HOUR || CLOSING_HOUR <= time)
    ensures o.Fail? ==> o.error == OutsideClinicHours
  {
    if time != 0.0 && (time < OPENING_HOUR || time >= CLOSING_HOUR) then Fail(OutsideClinicHours) else Pass
  }

  /** An appointment that passes the clinic-hours check starts between 08:00 and 19:59 of
      its date. */
  lemma AcceptedTimeStartsInOpeningHours(day: int, time: real)
    requires time != 0.0 && CheckClinicHours(time).Pass?
    ensures StartOf(Some(day), time).Some?
    ensures var minute := StartOf(Some(day), time).value - (day * MINUTES_PER_DAY) as real;
            480.0 <= minute < 1200.0
  {
    StartIsWholeMinutes(day, time);
    var f := (time * 60.0).Floor;
    assert f as real <= time * 60.0 < f as real + 1.0;
    assert 480 <= f < 1200;
  }

  /** The search domain of the availability check: `other` is a different, active,
      non-cancelled, non-no-show appointment of the same doctor whose interval meets
      `rec`'s half-open interval. A comparison with an unset timestamp never matches. */
  predicate Blocks(other: AppointmentRow, rec: AppointmentRow)
  {
    && other.active
    && other.id != rec.id
    && other.doctor == rec.doctor
    && other.state !in {Cancelled, NoShow}
    && other.Start().Some? && rec.End().Some?
    && other.Start().value < rec.End().value
    && other.End().Some? && rec.Start().Some?
    && other.End().value > rec.Start().value
  }

  /** The appointments of `table` that block `rec`, in table order. */
  function Overlapping(rec: AppointmentRow, table: seq<AppointmentRow>): (found: seq<AppointmentRow>)
    ensures forall a :: a in found ==> a in table && Blocks(a, rec)
    ensures forall i :: 0 <= i < |table| && Blocks(table[i], rec) ==> table[i] in found
    ensures found != [] ==>
              exists i :: 0 <= i < |table| && table[i] == found[0] && forall j :: 0 <= j < i ==> !Blocks(table[j], rec)
  {
    if table == [] then []
    else
      var rest := Overlapping(rec, table[1..]);
      if Blocks(table[0], rec) then [table[0]] + rest
      else
        (if rest != [] then
           var i :| 0 <= i < |table[1..]| && table[1..][i] == rest[0]
                    && forall j :: 0 <= j < i ==> !Blocks(table[1..][j], rec);
           assert table[i + 1] == rest[0];
           assert forall j :: 0 <= j < i + 1 ==> !Blocks(table[j], rec) by {
             forall j | 0 <= j < i + 1 ensures !Blocks(table[j], rec) {
               if j > 0 { assert table[j] == table[1..][j - 1]; }
             }
           }
           rest
         else rest)
  }

  /** The double-booking check. A cancelled appointment, or one without a start, is not
      checked; otherwise it is rejected exactly when some other appointment blocks it, and
      the error names the first such appointment. A no-show appointment is checked. */
  function CheckDoctorAvailability(rec: AppointmentRow, table: seq<AppointmentRow>): (o: Outcome<Error>)
    ensures o.Fail? <==>
              rec.Start().Some? && rec.state != Cancelled && exists i :: 0 <= i < |table| && Blocks(table[i], rec)
    ensures o.Fail? ==>
              exists i :: 0 <= i < |table| && Blocks(table[i], rec)
                && o.error == DoctorUnavailable(table[i].reference)
                && forall j :: 0 <= j < i ==> !Blocks(table[j], rec)
  {
    if rec.Start().Some? && rec.state != Cancelled then
      var found := Overlapping(rec, table);
      if found != [] then Fail(DoctorUnavailable(found[0].reference)) else Pass
    else Pass
  }

  /** The conjunction of the three constraints: in the future, within clinic hours, and the
      doctor free. A failure is the failure of one of the three checks. */
  function Validate(rec: AppointmentRow, table: seq<AppointmentRow>, now: real): (o: Outcome<Error>)
    ensures o.Pass? <==>
              && CheckInFuture(rec.Start(), now).Pass?
              && CheckClinicHours(rec.time).Pass?
              && CheckDoctorAvailability(rec, table).Pass?
    ensures o.Fail? ==>
              || o == CheckInFuture(rec.Start(), now)
              || o == CheckClinicHours(rec.time)
              || o == CheckDoctorAvailability(rec, table)
  {
    match CheckInFuture(rec.Start(), now)
    case Fail(e) => Fail(e)
    case Pass =>
      match CheckClinicHours(rec.time)
      case Fail(e) => Fail(e)
      case Pass => CheckDoctorAvailability(rec, table)
  }

  /** Two appointments whose one ends exactly when the other starts never block each
      other, whichever of them is being checked. */
  lemma BackToBackNeverConflict(a: AppointmentRow, b: AppointmentRow)
    requires a.End().Some? && b.Start().Some? && a.End().value == b.Start().value
    ensures !Blocks(a, b) && !Blocks(b, a)
  {
  }

  /** An appointment that holds its doctor's time: active, neither cancelled nor a no-show,
      with both timestamps set. */
  predicate Occupies(a: AppointmentRow)
  {
    a.active && a.state !in {Cancelled, NoShow} && a.Start().Some? && a.End().Some?
  }

  /** Between two occupying appointments of one doctor the overlap test does not depend on
      which of them is being checked. */
  lemma BlocksSymmetric(a: AppointmentRow, b: AppointmentRow)
    requires Occupies(a) && Occupies(b) && a.id != b.id && a.doctor == b.doctor
    ensures Blocks(a, b) <==> Blocks(b, a)
  {
  }

  /** The scheduling invariant: no two occupying appointments of one doctor overlap. */
  predicate NoDoubleBooking(table: seq<AppointmentRow>)
  {
    forall i, j :: 0 <= i < |table| && 0 <= j < |table| && i != j
      && Occupies(table[i]) && Occupies(table[j]) && table[i].doctor == table[j].doctor
      ==> !(table[i].Start().value < table[j].End().value && table[j].Start().value < table[i].End().value)
  }

  /** An appointment that passed the availability check overlaps no occupying
      appointment of its doctor in the table. */
  lemma AcceptedOverlapsNothing(table: seq<AppointmentRow>, rec: AppointmentRow, k: nat)
    requires k < |table| && table[k].id != rec.id
    requires CheckDoctorAvailability(rec, table).Pass?
    requires Occupies(table[k]) && Occupies(rec) && table[k].doctor == rec.doctor
    ensures !(table[k].Start().value < rec.End().value && rec.Start().value < table[k].End().value)
  {
    if table[k].Start().value < rec.End().value && rec.Start().value < table[k].End().value {
      assert Blocks(table[k], rec);
    }
  }

  /** Storing an appointment that passed the availability check keeps the scheduling
      invariant. */
  lemma AcceptedAppointmentKeepsNoDoubleBooking(table: seq<AppointmentRow>, rec: AppointmentRow)
    requires NoDoubleBooking(table)
    requires forall i :: 0 <= i < |table| ==> table[i].id != rec.id
    requires CheckDoctorAvailability(rec, table).Pass?
    ensures NoDoubleBooking(table + [rec])
  {
    var t := table + [rec];
    forall i, j | 0 <= i < |t| && 0 <= j < |t| && i != j
      && Occupies(t[i]) && Occupies(t[j]) && t[i].doctor == t[j].doctor
      ensures !(t[i].Start().value < t[j].End().value && t[j].Start().value < t[i].End().value)
    {
      if i == |table| {
        AcceptedOverlapsNothing(table, rec, j);
      } else if j == |table| {
        AcceptedOverlapsNothing(table, rec, i);
      } else {
        assert t[i] == table[i] && t[j] == table[j];
      }
    }
  }

  /** Rewriting the doctor, date, time or duration of a stored appointment, when the new
      values pass the availability check, keeps the scheduling invariant. */
  lemma AcceptedUpdateKeepsNoDoubleBooking(table: seq<AppointmentRow>, k: nat, rec: AppointmentRow)
    requires k < |table| && table[k].id == rec.id
    requires forall i :: 0 <= i < |table| && i != k ==> table[i].id != rec.id
    requires NoDoubleBooking(table)
    requires CheckDoctorAvailability(rec, table).Pass?
    ensures NoDoubleBooking(table[k := rec])
  {
    var t := table[k := rec];
    forall i, j | 0 <= i < |t| && 0 <= j < |t| && i != j
      && Occupies(t[i]) && Occupies(t[j]) && t[i].doctor == t[j].doctor
      ensures !(t[i].Start().value < t[j].End().value && t[j].Start().value < t[i].End().value)
    {
      if i == k {
        AcceptedOverlapsNothing(table, rec, j);
      } else if j == k {
        AcceptedOverlapsNothing(table, rec, i);
      } else {
        assert t[i] == table[i] && t[j] == table[j];
      }
    }
  }

  // ------------------------------------------------------------------
  // Workflow
  // ------------------------------------------------------------------

  /** The workflow buttons of an appointment. */
  datatype Action = Confirm | Arrive | Begin | Complete | Cancel | MarkNoShow | Reset

  /** The state an action leaves behind: forward moves and the no-show fire from exactly
      one state, cancel from every state but done and cancelled, reset from every state;
      anything else is a silent no-op. */
  function Step(s: State, a: Action): State
  {
    match a
    case Confirm => if s == Draft then Confirmed else s
    case Arrive => if s == Confirmed then Arrived else s
    case Begin => if s == Arrived then InProgress else s
    case Complete => if s == InProgress then Done else s
    case Cancel => if s !in {Done, Cancelled} then Cancelled else s
    case MarkNoShow => if s == Confirmed then NoShow else s
    case Reset => Draft
  }

  /** Which state each action needs, and that a no-show can still be cancelled. */
  lemma StepGuards(s: State)
    ensures Step(s, Confirm) != s <==> s == Draft
    ensures Step(s, Arrive) != s <==> s == Confirmed
    ensures Step(s, Begin) != s <==> s == Arrived
    ensures Step(s, Complete) != s <==> s == InProgress
    ensures Step(s, MarkNoShow) != s <==> s == Confirmed
    ensures Step(s, Cancel) != s <==> s !in {Done, Cancelled}
    ensures Step(NoShow, Cancel) == Cancelled
    ensures Step(s, Reset) == Draft
  {
  }

  /** Pressing the same button twice does what pressing it once did; in particular
      cancelling a cancelled appointment is a no-op, not an error. */
  lemma StepIdempotent(s: State, a: Action)
    ensures Step(Step(s, a), a) == Step(s, a)
  {
  }

  /** Done and cancelled appointments leave their state only through a reset. */
  lemma FinalStatesOnlyReset(s: State, a: Action)
    requires s in {Done, Cancelled} && a != Reset
    ensures Step(s, a) == s
  {
  }

  /** The workflow actions write the state only, which is not among the fields that
      re-run the availability check: resetting a cancelled appointment can bring back a
      double-booking that was allowed because the slot had been released. */
  lemma ResetDoesNotRecheckAvailability()
    ensures exists a: AppointmentRow, b: AppointmentRow ::
              && NoDoubleBooking([a, b])
              && CheckDoctorAvailability(b, [a]).Pass?
              && !NoDoubleBooking([a.(state := Step(a.state, Reset)), b])
  {
    var a := AppointmentRow(1, "A", 7, Some(20000), 10.0, 1.0, Cancelled, true);
    var b := AppointmentRow(2, "B", 7, Some(20000), 10.0, 1.0, Confirmed, true);
    var a' := a.(state := Step(a.state, Reset));
    assert [a', b][0] == a' && [a', b][1] == b;
    assert Occupies(a') && Occupies(b);
    assert NoDoubleBooking([a, b]);
    assert !NoDoubleBooking([a', b]);
  }

  // ------------------------------------------------------------------
  // Daily reminders
  // ------------------------------------------------------------------

  /** The reminder search: active appointments dated `tomorrow` in the confirmed state. */
  predicate DueForReminder(a: AppointmentRow, tomorrow: int)
  {
    a.active && a.date == Some(tomorrow) && a.state == Confirmed
  }

  function RemindersDue(table: seq<AppointmentRow>, tomorrow: int): (due: seq<AppointmentRow>)
    ensures |due| <= |table|
    ensures forall a :: a in due <==> a in table && DueForReminder(a, tomorrow)
  {
    if table == [] then []
    else (if DueForReminder(table[0], tomorrow) then [table[0]] else []) + RemindersDue(table[1..], tomorrow)
  }

  function Ids(rows: seq<AppointmentRow>): (ids: seq<nat>)
    ensures |ids| == |rows|
    ensures forall i :: 0 <= i < |rows| ==> ids[i] == rows[i].id
  {
    if rows == [] then [] else [rows[0].id] + Ids(rows[1..])
  }

  /** Every appointment due tomorrow is reminded, and only those. */
  lemma RemindedExactlyTheDue(table: seq<AppointmentRow>, tomorrow: int)
    ensures forall a :: a in table && DueForReminder(a, tomorrow) ==> a.id in Ids(RemindersDue(table, tomorrow))
    ensures forall id :: id in Ids(RemindersDue(table, tomorrow)) ==>
              exists a :: a in table && DueForReminder(a, tomorrow) && a.id == id
  {
    var due := RemindersDue(table, tomorrow);
    var ids := Ids(due);
    forall a | a in table && DueForReminder(a, tomorrow) ensures a.id in ids {
      var i :| 0 <= i < |due| && due[i] == a;
      assert ids[i] == a.id;
    }
    forall id | id in ids ensures exists a :: a in table && DueForReminder(a, tomorrow) && a.id == id {
      var i :| 0 <= i < |ids| && ids[i] == id;
      assert due[i] in due;
    }
  }

  /** The daily sweep: one reminder per appointment due tomorrow, in search order, and
      the number of them. Whether an email goes out does not change the count. */
  method SendDailyReminders(table: seq<AppointmentRow>, today: int) returns (count: nat, reminded: seq<nat>)
    ensures count == |RemindersDue(table, today + 1)| && count <= |table|
    ensures reminded == Ids(RemindersDue(table, today + 1))
  {
    var appointments := RemindersDue(table, today + 1);
    count := 0;
    reminded := [];
    while count < |appointments|
      invariant count <= |appointments|
      invariant |reminded| == count
      invariant forall k :: 0 <= k < count ==> reminded[k] == appointments[k].id
    {
      reminded := reminded + [appointments[count].id];
      count := count + 1;
    }
  }

  // ------------------------------------------------------------------
  // The appointment record
  // ------------------------------------------------------------------

  class Appointment {
    const id: nat
    var reference: string
    var patient: Patients.Patient
    var doctor: nat
    var date: Option<int>
    var time: real
    var duration: real
    var appointmentType: AppointmentType
    var priority: Priority
    var state: State
    var active: bool

    /** A new appointment with the model's defaults: draft, one hour, a consultation of
        normal priority, active. */
    constructor (id: nat, reference: string, patient: Patients.Patient, doctor: nat, date: Option<int>, time: real)
      ensures this.id == id && this.reference == reference && this.patient == patient
      ensures this.doctor == doctor && this.date == date && this.time == time
      ensures duration == 1.0 && appointmentType == Consultation && priority == Normal
      ensures state == Draft && active
    {
      this.id := id;
      this.reference := reference;
      this.patient := patient;
      this.doctor := doctor;
      this.date := date;
      this.time := time;
      duration := 1.0;
      appointmentType := Consultation;
      priority := Normal;
      state := Draft;
      active := true;
    }

    /** Choosing the emergency type raises the priority to very high and shortens the
        appointment to half an hour; other types change nothing. */
    method OnchangeAppointmentType()
      modifies this`priority, this`duration
      ensures appointmentType == Emergency ==> priority == VeryHigh && duration == 0.5
      ensures appointmentType != Emergency ==> priority == old(priority) && duration == old(duration)
    {
      if appointmentType == Emergency {
        priority := VeryHigh;
        duration := 0.5;
      }
    }

    method ActionConfirm()
      modifies this`state
      ensures state == Step(old(state), Confirm)
    {
      if state == Draft {
        state := Confirmed;
      }
    }

    method ActionArrived()
      modifies this`state
      ensures state == Step(old(state), Arrive)
    {
      if state == Confirmed {
        state := Arrived;
      }
    }

    method ActionStart()
      modifies this`state
      ensures state == Step(old(state), Begin)
    {
      if state == Arrived {
        state := InProgress;
      }
    }

    /** Completing an appointment in progress also finishes its patient's consultation;
        a patient in any other state is left alone. */
    method ActionDone()
      modifies this`state, patient`state
      ensures state == Step(old(state), Complete)
      ensures old(state) == InProgress ==> patient.state == Patients.Step(old(patient.state), Patients.Finish)
      ensures old(state) != InProgress ==> patient.state == old(patient.state)
    {
      if state == InProgress {
        state := Done;
        if patient.state == Patients.Consultation {
          patient.state := Patients.Done;
        }
      }
    }

    method ActionCancel()
      modifies this`state
      ensures state == Step(old(state), Cancel)
    {
      if state !in {Done, Cancelled} {
        state := Cancelled;
      }
    }

    method ActionNoShow()
      modifies this`state
      ensures state == Step(old(state), MarkNoShow)
    {
      if state == Confirmed {
        state := NoShow;
      }
    }

    method ActionResetToDraft()
      modifies this`state
      ensures state == Step(old(state), Reset)
    {
      state := Draft;
    }
  }

  /** `action_done` on a set of appointments: each one in progress becomes done, and every
      patient in consultation with at least one of them becomes done, however many of
      the appointments share that patient. */
  method CompleteAll(records: seq<Appointment>)
    requires forall i, j :: 0 <= i < j < |records| ==> records[i] != records[j]
    modifies (set r | r in records)`state
    modifies (set r | r in records :: r.patient)`state
    ensures forall r :: r in records ==> r.state == Step(old(r.state), Complete)
    ensures forall r :: r in records ==>
              r.patient.state ==
                if old(r.patient.state) == Patients.Consultation
                   && exists q :: q in records && q.patient == r.patient && old(q.state) == InProgress
                then Patients.Done
                else old(r.patient.state)
  {
    var i := 0;
    while i < |records|
      invariant 0 <= i <= |records|
      invariant forall k :: 0 <= k < |records| ==> records[k].patient == old(records[k].patient)
      invariant forall k :: 0 <= k < i ==> records[k].state == Step(old(records[k].state), Complete)
      invariant forall k :: i <= k < |records| ==> records[k].state == old(records[k].state)
      invariant forall k :: 0 <= k < |records| ==>
                  records[k].patient.state ==
                    if old(records[k].patient.state) == Patients.Consultation
                       && exists m :: 0 <= m < i && records[m].patient == records[k].patient && old(records[m].state) == InProgress
                    then Patients.Done
                    else old(records[k].patient.state)
    {
      label before:
      records[i].ActionDone();
      forall k | 0 <= k < |records|
        ensures records[k].patient.state ==
                  if old(records[k].patient.state) == Patients.Consultation
                     && exists m :: 0 <= m < i + 1 && records[m].patient == records[k].patient && old(records[m].state) == InProgress
                  then Patients.Done
                  else old(records[k].patient.state)
      {
        if records[k].patient != records[i].patient {
          assert records[k].patient.state == old@before(records[k].patient.state);
        } else if old(records[i].state) == InProgress {
          assert records[i].patient == records[k].patient;
        }
      }
      i := i + 1;
    }
  }
}
