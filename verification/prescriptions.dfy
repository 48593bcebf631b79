/** Prescriptions: the medicine-line checks, the "a confirmed prescription prescribes
    something" rule and the dispensing workflow. */
module Prescriptions {
  import opened Wrappers

  datatype State = Draft | Confirmed | Dispensed | Completed | Cancelled

  datatype Error = DurationNotPositive | QuantityNotPositive | NoMedicine

  /** The numeric part of a medicine line; name, type, dosage, frequency and timing are
      free text or selections that no rule looks at. */
  datatype MedicineLine = MedicineLine(durationNumber: int, quantity: int)

  /** A line needs a positive duration and a positive quantity; the duration is checked
      first. */
  function CheckLine(line: MedicineLine): (o: Outcome<Error>)
    ensures o.Pass? <==> line.durationNumber > 0 && line.quantity > 0
    ensures o == Fail(DurationNotPositive) <==> line.durationNumber <= 0
    ensures o == Fail(QuantityNotPositive) <==> line.durationNumber > 0 && line.quantity <= 0
  {
    if line.durationNumber <= 0 then Fail(DurationNotPositive)
    else if line.quantity <= 0 then Fail(QuantityNotPositive)
    else Pass
  }

  /** The first line of `lines` that fails its check, if any. */
  function FirstBadLine(lines: seq<MedicineLine>): (r: Option<nat>)
    ensures r.None? <==> forall i :: 0 <= i < |lines| ==> CheckLine(lines[i]).Pass?
    ensures r.Some? ==> r.value < |lines| && CheckLine(lines[r.value]).Fail?
    ensures r.Some? ==> forall i :: 0 <= i < r.value ==> CheckLine(lines[i]).Pass?
  {
    if lines == [] then None
    else if CheckLine(lines[0]).Fail? then Some(0)
    else
      var rest := FirstBadLine(lines[1..]);
      assert forall i :: 0 <= i < |lines| - 1 ==> lines[1..][i] == lines[i + 1];
      if rest.None? then None else Some(rest.value + 1)
  }

  /** A confirmed prescription must keep at least one medicine line. */
  function CheckMedicineLines(state: State, lines: seq<MedicineLine>): (o: Outcome<Error>)
    ensures o.Fail? <==> state == Confirmed && |lines| == 0
  {
    if state == Confirmed && lines == [] then Fail(NoMedicine) else Pass
  }

  /** The invariant the two checks together keep on a stored prescription. */
  predicate Consistent(state: State, lines: seq<MedicineLine>)
  {
    && (state == Confirmed ==> lines != [])
    && forall i :: 0 <= i < |lines| ==> CheckLine(lines[i]).Pass?
  }

  /** The workflow buttons of a prescription. */
  datatype Action = Confirm | Dispense | Complete | Cancel | Reset

  /** The state an action leaves behind when it does not raise. */
  function Step(s: State, a: Action): State
  {
    match a
    case Confirm => if s == Draft then Confirmed else s
    case Dispense => if s == Confirmed then Dispensed else s
    case Complete => if s == Dispensed then Completed else s
    case Cancel => if s == Draft || s == Confirmed then Cancelled else s
    case Reset => Draft
  }

  lemma StepGuards(s: State)
    ensures Step(s, Confirm) != s <==> s == Draft
    ensures Step(s, Dispense) != s <==> s == Confirmed
    ensures Step(s, Complete) != s <==> s == Dispensed
    ensures Step(s, Cancel) != s <==> s == Draft || s == Confirmed
    ensures Step(s, Reset) == Draft
  {
  }

  /** Pressing the same button twice does what pressing it once did. */
  lemma StepIdempotent(s: State, a: Action)
    ensures Step(Step(s, a), a) == Step(s, a)
  {
  }

  /** Dispensed medicine cannot be taken back by cancelling. */
  lemma DispensedCannotBeCancelled(s: State)
    requires s == Dispensed || s == Completed
    ensures Step(s, Cancel) == s
  {
  }

  /** The lines-present rule guards only the confirmed state: in any other state, lines
      that each pass their check are accepted, however few (none at all included). */
  lemma LinesRuleGuardsOnlyConfirmed(s: State, lines: seq<MedicineLine>)
    requires s != Confirmed && forall i :: 0 <= i < |lines| ==> CheckLine(lines[i]).Pass?
    ensures CheckMedicineLines(s, lines).Pass? && Consistent(s, lines)
  {
  }

  class Prescription {
    var lines: seq<MedicineLine>
    var state: State

    /** A new draft prescription without medicines. */
    constructor ()
      ensures lines == [] && state == Draft
      ensures Consistent(state, lines)
    {
      lines := [];
      state := Draft;
    }

    function MedicineCount(): (n: nat)
      reads this
      ensures n == |lines|
      ensures n == 0 <==> lines == []
    {
      |lines|
    }

    /** Replacing the medicine lines runs the line checks and then the prescription's own
        check; a failure leaves the lines as they were. */
    method SetLines(newLines: seq<MedicineLine>) returns (o: Outcome<Error>)
      modifies this`lines
      ensures o.Pass? <==> Consistent(state, newLines)
      ensures o.Pass? ==> lines == newLines
      ensures o.Fail? ==> lines == old(lines)
      ensures o.Fail? && FirstBadLine(newLines).Some? ==> o == CheckLine(newLines[FirstBadLine(newLines).value])
    {
      var bad := FirstBadLine(newLines);
      if bad.Some? {
        return CheckLine(newLines[bad.value]);
      }
      o := CheckMedicineLines(state, newLines);
      if o.Pass? {
        lines := newLines;
      }
    }

    /** Confirming a draft needs at least one medicine; the refusal changes nothing. */
    method ActionConfirm() returns (o: Outcome<Error>)
      modifies this`state
      ensures o.Fail? <==> old(state) == Draft && lines == []
      ensures o.Fail? ==> o.error == NoMedicine && state == old(state)
      ensures o.Pass? ==> state == Step(old(state), Confirm)
      ensures o.Pass? && old(state) == Draft ==> CheckMedicineLines(state, lines).Pass?
      ensures Consistent(old(state), lines) ==> Consistent(state, lines)
    {
      if state == Draft {
        if lines == [] {
          return Fail(NoMedicine);
        }
        state := Confirmed;
      }
      o := Pass;
    }

    method ActionDispense()
      modifies this`state
      ensures state == Step(old(state), Dispense)
      ensures Consistent(old(state), lines) ==> Consistent(state, lines)
    {
      if state == Confirmed {
        state := Dispensed;
      }
    }

    method ActionComplete()
      modifies this`state
      ensures state == Step(old(state), Complete)
      ensures Consistent(old(state), lines) ==> Consistent(state, lines)
    {
      if state == Dispensed {
        state := Completed;
      }
    }

    method ActionCancel()
      modifies this`state
      ensures state == Step(old(state), Cancel)
      ensures Consistent(old(state), lines) ==> Consistent(state, lines)
    {
      if state == Draft || state == Confirmed {
        state := Cancelled;
      }
    }

    method ActionResetToDraft()
      modifies this`state
      ensures state == Step(old(state), Reset)
      ensures Consistent(old(state), lines) ==> Consistent(state, lines)
    {
      state := Draft;
    }
  }
}
