/** Medical records: the draft -> confirmed -> archived workflow and the attachment count. */
module MedicalRecords {

  datatype State = Draft | Confirmed | Archived

  /** The workflow buttons of a medical record. */
  datatype Action = Confirm | Archive | Reset

  /** The state an action leaves behind; an action outside its state is a silent no-op. */
  function Step(s: State, a: Action): State
  {
    match a
    case Confirm => if s == Draft then Confirmed else s
    case Archive => if s == Confirmed then Archived else s
    case Reset => Draft
  }

  lemma StepGuards(s: State)
    ensures Step(s, Confirm) != s <==> s == Draft
    ensures Step(s, Archive) != s <==> s == Confirmed
    ensures Step(s, Reset) == Draft
  {
  }

  /** Pressing the same button twice does what pressing it once did. */
  lemma StepIdempotent(s: State, a: Action)
    ensures Step(Step(s, a), a) == Step(s, a)
  {
  }

  /** The state after pressing the buttons of `actions` in order. */
  function Run(s: State, actions: seq<Action>): State
    decreases |actions|
  {
    if actions == [] then s else Run(Step(s, actions[0]), actions[1..])
  }

  /** A draft record reaches the archive only through a confirmation: every sequence of
      buttons that takes a draft to archived contains a confirm. */
  lemma {:induction false} ArchivedOnlyAfterConfirm(s: State, actions: seq<Action>)
    requires s == Draft && Run(s, actions) == Archived
    ensures exists i :: 0 <= i < |actions| && actions[i] == Confirm
  {
    // From a draft only a confirm moves the record; archive and reset leave it in draft.
    if actions[0] != Confirm {
      ArchivedOnlyAfterConfirm(Step(s, actions[0]), actions[1..]);
      var i :| 0 <= i < |actions[1..]| && actions[1..][i] == Confirm;
      assert actions[i + 1] == Confirm;
    }
  }

  class MedicalRecord {
    var attachmentIds: set<nat>
    var state: State

    /** A new draft record without attachments. */
    constructor ()
      ensures attachmentIds == {} && state == Draft
    {
      attachmentIds := {};
      state := Draft;
    }

    /** The number of distinct attachments linked to the record. */
    function AttachmentCount(): (n: nat)
      reads this
      ensures n == |attachmentIds|
      ensures n == 0 <==> attachmentIds == {}
    {
      |attachmentIds|
    }

    method ActionConfirm()
      modifies this`state
      ensures state == Step(old(state), Confirm)
    {
      if state == Draft {
        state := Confirmed;
      }
    }

    method ActionArchiveRecord()
      modifies this`state
      ensures state == Step(old(state), Archive)
    {
      if state == Confirmed {
        state := Archived;
      }
    }

    method ActionResetToDraft()
      modifies this`state
      ensures state == Step(old(state), Reset)
    {
      state := Draft;
    }
  }
}
