/** Patients: the visit workflow, the child flag and the appointment count. */
module Patients {

  datatype State = New | Waiting | Consultation | Done | Cancel

  /** The workflow buttons of a patient. */
  datatype Action = MoveToWaiting | StartConsultation | Finish | CancelVisit | ResetToNew

  /** The state an action leaves behind. Forward moves fire from exactly one state;
      anything else is a silent no-op, never an error. */
  function Step(s: State, a: Action): State
  {
    match a
    case MoveToWaiting => if s == New then Waiting else s
    case StartConsultation => if s == Waiting then Consultation else s
    case Finish => if s == Consultation then Done else s
    case CancelVisit => if s in {New, Waiting, Consultation} then Cancel else s
    case ResetToNew => New
  }

  /** Which state each forward action needs, and where it leads. */
  lemma StepGuards(s: State)
    ensures Step(s, MoveToWaiting) != s <==> s == New
    ensures Step(s, StartConsultation) != s <==> s == Waiting
    ensures Step(s, Finish) != s <==> s == Consultation
    ensures Step(s, CancelVisit) != s <==> s !in {Done, Cancel}
    ensures Step(s, CancelVisit) in {Cancel, Done}
    ensures Step(s, ResetToNew) == New
  {
  }

  /** Pressing the same button twice does what pressing it once did. */
  lemma StepIdempotent(s: State, a: Action)
    ensures Step(Step(s, a), a) == Step(s, a)
  {
  }

  /** Done and cancelled patients leave their state only through a reset. */
  lemma FinalStatesOnlyReset(s: State, a: Action)
    requires s in {Done, Cancel} && a != ResetToNew
    ensures Step(s, a) == s
  {
  }

  /** The position of a state along new -> waiting -> consultation -> done. */
  function Progress(s: State): nat
  {
    match s
    case New => 0
    case Waiting => 1
    case Consultation => 2
    case Done => 3
    case Cancel => 3
  }

  /** Every action but the reset moves a patient forward or not at all. */
  lemma ForwardOnly(s: State, a: Action)
    requires a != ResetToNew
    ensures Progress(s) <= Progress(Step(s, a))
  {
  }

  /** The child flag: an unset (zero) age is not a child; otherwise under 18. A negative
      age, as a future date of birth yields, counts as a child. */
  function IsChild(age: int): (child: bool)
    ensures age == 0 ==> !child
    ensures age != 0 ==> (child <==> age < 18)
  {
    if age != 0 then age < 18 else false
  }

  /** Every adult and the zero age give false; every positive age under 18 gives true. */
  lemma IsChildExactly(age: int)
    ensures IsChild(age) <==> age < 0 || 0 < age < 18
  {
  }

  class Patient {
    var reference: string
    var state: State
    var age: int
    /** The patient's appointments (the one2many of appointments pointing here). */
    var appointmentIds: set<nat>

    constructor (reference: string, age: int)
      ensures this.reference == reference && this.age == age
      ensures state == New && appointmentIds == {}
    {
      this.reference := reference;
      this.age := age;
      state := New;
      appointmentIds := {};
    }

    /** The number of distinct appointments linked to the patient. */
    function AppointmentCount(): (n: nat)
      reads this
      ensures n == |appointmentIds|
      ensures n == 0 <==> appointmentIds == {}
    {
      |appointmentIds|
    }

    method ActionWaiting()
      modifies this`state
      ensures state == Step(old(state), MoveToWaiting)
    {
      if state == New {
        state := Waiting;
      }
    }

    method ActionConsultation()
      modifies this`state
      ensures state == Step(old(state), StartConsultation)
    {
      if state == Waiting {
        state := Consultation;
      }
    }

    method ActionDone()
      modifies this`state
      ensures state == Step(old(state), Finish)
    {
      if state == Consultation {
        state := Done;
      }
    }

    method ActionCancel()
      modifies this`state
      ensures state == Step(old(state), CancelVisit)
    {
      if state in {New, Waiting, Consultation} {
        state := Cancel;
      }
    }

    method ActionResetToNew()
      modifies this`state
      ensures state == Step(old(state), ResetToNew)
    {
      state := New;
    }
  }
}
