/** Laboratory tests: the workflow, result classification from the line flags, the
    result-date constraint and the expansion of a test type into result lines. */
module LabTests {
  import opened Wrappers

  datatype State = Draft | Requested | InProgress | Completed | Cancelled

  datatype ResultStatus = Normal | Abnormal | Critical

  datatype Error = ResultBeforeTestDate

  /** One parameter of a test-type template. */
  datatype Parameter = Parameter(name: string, unit: string, normalRange: string, sequence: int)

  /** A test type: its name and its parameters, in order. */
  datatype TestType = TestType(name: string, parameters: seq<Parameter>)

  /** One result line of a test. */
  datatype Line = Line(
    parameterName: string,
    unit: string,
    normalRange: string,
    sequence: int,
    resultValue: Option<string>,
    isAbnormal: bool,
    isCritical: bool)

  /** `any(line.is_critical for line in lines)`. */
  function AnyCritical(lines: seq<Line>): (b: bool)
    ensures b <==> exists i :: 0 <= i < |lines| && lines[i].isCritical
  {
    if lines == [] then false
    else lines[0].isCritical || (assert forall i :: 0 <= i < |lines| - 1 ==> lines[1..][i] == lines[i + 1]; AnyCritical(lines[1..]))
  }

  /** `any(line.is_abnormal for line in lines)`. */
  function AnyAbnormal(lines: seq<Line>): (b: bool)
    ensures b <==> exists i :: 0 <= i < |lines| && lines[i].isAbnormal
  {
    if lines == [] then false
    else lines[0].isAbnormal || (assert forall i :: 0 <= i < |lines| - 1 ==> lines[1..][i] == lines[i + 1]; AnyAbnormal(lines[1..]))
  }

  /** The classification: critical if some line is critical, else abnormal if some line is
      abnormal, else normal. */
  function Classify(lines: seq<Line>): (r: ResultStatus)
    ensures r == Critical <==> exists i :: 0 <= i < |lines| && lines[i].isCritical
    ensures r == Abnormal <==>
              (forall i :: 0 <= i < |lines| ==> !lines[i].isCritical) && exists i :: 0 <= i < |lines| && lines[i].isAbnormal
    ensures r == Normal <==> forall i :: 0 <= i < |lines| ==> !lines[i].isCritical && !lines[i].isAbnormal
  {
    if AnyCritical(lines) then Critical
    else if AnyAbnormal(lines) then Abnormal
    else Normal
  }

  /** The rank of a status: normal below abnormal below critical. */
  function Severity(r: ResultStatus): nat
  {
    match r
    case Normal => 0
    case Abnormal => 1
    case Critical => 2
  }

  /** The worse of two statuses. */
  function Worse(a: ResultStatus, b: ResultStatus): (w: ResultStatus)
    ensures Severity(w) >= Severity(a) && Severity(w) >= Severity(b)
    ensures w == a || w == b
  {
    if Severity(a) >= Severity(b) then a else b
  }

  /** Classifying two batches of lines together gives the worse of their separate
      classifications: critical beats abnormal, which beats normal, whatever the order. */
  lemma {:induction false} ClassifyConcat(a: seq<Line>, b: seq<Line>)
    ensures Classify(a + b) == Worse(Classify(a), Classify(b))
  {
    var ab := a + b;
    assert forall i :: 0 <= i < |a| ==> ab[i] == a[i];
    assert forall i :: 0 <= i < |b| ==> ab[|a| + i] == b[i];
    if AnyCritical(ab) {
      var i :| 0 <= i < |ab| && ab[i].isCritical;
      if i < |a| { assert a[i].isCritical; } else { assert b[i - |a|].isCritical; }
    } else if AnyAbnormal(ab) {
      var i :| 0 <= i < |ab| && ab[i].isAbnormal;
      if i < |a| { assert a[i].isAbnormal; } else { assert b[i - |a|].isAbnormal; }
    }
  }

  /** Adding a line never lowers the classification. */
  lemma AddingLineNeverLowers(lines: seq<Line>, line: Line)
    ensures Severity(Classify(lines + [line])) >= Severity(Classify(lines))
  {
    ClassifyConcat(lines, [line]);
  }

  /** A result date may not come before the test date; an unset result date is not
      checked. */
  function CheckResultDate(resultDate: Option<int>, testDate: int): (o: Outcome<Error>)
    ensures o.Fail? <==> resultDate.Some? && resultDate.value < testDate
  {
    if resultDate.Some? && resultDate.value < testDate then Fail(ResultBeforeTestDate) else Pass
  }

  /** The line a parameter expands to: its name, unit, range and sequence, no result. */
  function LineFor(p: Parameter): Line
  {
    Line(p.name, p.unit, p.normalRange, p.sequence, None, false, false)
  }

  /** The workflow buttons of a lab test. */
  datatype Action = Request | StartTest | Complete | Cancel | Reset

  /** The state an action leaves behind when it does not raise. */
  function Step(s: State, a: Action): State
  {
    match a
    case Request => if s == Draft then Requested else s
    case StartTest => if s == Requested then InProgress else s
    case Complete => if s == InProgress then Completed else s
    case Cancel => if s == Draft || s == Requested then Cancelled else s
    case Reset => Draft
  }

  lemma StepGuards(s: State)
    ensures Step(s, Request) != s <==> s == Draft
    ensures Step(s, StartTest) != s <==> s == Requested
    ensures Step(s, Complete) != s <==> s == InProgress
    ensures Step(s, Cancel) != s <==> s == Draft || s == Requested
    ensures Step(s, Reset) == Draft
  {
  }

  /** Pressing the same button twice does what pressing it once did. */
  lemma StepIdempotent(s: State, a: Action)
    ensures Step(Step(s, a), a) == Step(s, a)
  {
  }

  /** A test being processed or completed can no longer be cancelled. */
  lemma StartedTestsCannotBeCancelled(s: State)
    requires s == InProgress || s == Completed
    ensures Step(s, Cancel) == s
  {
  }

  class LabTest {
    var testDate: int
    var resultDate: Option<int>
    var lines: seq<Line>
    var resultStatus: Option<ResultStatus>
    var state: State
    var attachmentIds: set<nat>

    /** A new draft test dated `testDate`, without results or attachments. */
    constructor (testDate: int)
      ensures this.testDate == testDate && resultDate == None && lines == []
      ensures resultStatus == None && state == Draft && attachmentIds == {}
    {
      this.testDate := testDate;
      resultDate := None;
      lines := [];
      resultStatus := None;
      state := Draft;
      attachmentIds := {};
    }

    /** The number of distinct attachments linked to the test. */
    function AttachmentCount(): (n: nat)
      reads this
      ensures n == |attachmentIds|
      ensures n == 0 <==> attachmentIds == {}
    {
      |attachmentIds|
    }

    /** With lines, the status becomes their classification; without lines it is kept. */
    method ComputeResultStatus()
      modifies this`resultStatus
      ensures lines == [] ==> resultStatus == old(resultStatus)
      ensures lines != [] ==> resultStatus == Some(Classify(lines))
    {
      if lines != [] {
        var hasAbnormal := AnyAbnormal(lines);
        var hasCritical := AnyCritical(lines);
        if hasCritical {
          resultStatus := Some(Critical);
        } else if hasAbnormal {
          resultStatus := Some(Abnormal);
        } else {
          resultStatus := Some(Normal);
        }
      }
    }

    method ActionRequest()
      modifies this`state
      ensures state == Step(old(state), Request)
    {
      if state == Draft {
        state := Requested;
      }
    }

    method ActionStartTest()
      modifies this`state
      ensures state == Step(old(state), StartTest)
    {
      if state == Requested {
        state := InProgress;
      }
    }

    /** Completing a test in progress fills an empty result date with `today`, keeps an
        existing one, and classifies the result lines. Filling the date re-runs the
        result-date check: a test dated after `today` cannot be completed this way, and the
        failed write leaves the test as it was. */
    method ActionComplete(today: int) returns (o: Outcome<Error>)
      modifies this`resultDate, this`state, this`resultStatus
      ensures o.Fail? <==> old(state) == InProgress && old(resultDate) == None && today < testDate
      ensures o.Fail? ==> resultDate == old(resultDate) && state == old(state) && resultStatus == old(resultStatus)
      ensures o.Pass? ==> state == Step(old(state), Complete)
      ensures o.Pass? && old(state) == InProgress ==>
                && resultDate == (if old(resultDate) == None then Some(today) else old(resultDate))
                && resultStatus == (if lines == [] then old(resultStatus) else Some(Classify(lines)))
      ensures o.Pass? && old(state) != InProgress ==>
                resultDate == old(resultDate) && resultStatus == old(resultStatus)
    {
      if state == InProgress {
        if resultDate == None {
          if CheckResultDate(Some(today), testDate).Fail? {
            return Fail(ResultBeforeTestDate);
          }
          resultDate := Some(today);
        }
        state := Completed;
        ComputeResultStatus();
      }
      o := Pass;
    }

    method ActionCancel()
      modifies this`state
      ensures state == Step(old(state), Cancel)
    {
      if state == Draft || state == Requested {
        state := Cancelled;
      }
    }

    method ActionResetToDraft()
      modifies this`state
      ensures state == Step(old(state), Reset)
    {
      state := Draft;
    }

    /** Choosing a test type with parameters adds one result line per parameter, in
        parameter order, copying name, unit, normal range and sequence. The assignment is a
        list of create commands, so lines already on the test are kept in front of the new
        ones. A missing type or one without parameters leaves the lines alone. */
    method OnchangeTestType(testType: Option<TestType>)
      modifies this`lines
      ensures testType.None? || testType.value.parameters == [] ==> lines == old(lines)
      ensures testType.Some? && testType.value.parameters != [] ==>
                && |lines| == |old(lines)| + |testType.value.parameters|
                && lines[..|old(lines)|] == old(lines)
                && forall i :: 0 <= i < |testType.value.parameters| ==>
                     lines[|old(lines)| + i] == LineFor(testType.value.parameters[i])
    {
      if testType.Some? && testType.value.parameters != [] {
        var params := testType.value.parameters;
        var i := 0;
        while i < |params|
          invariant 0 <= i <= |params|
          invariant |lines| == |old(lines)| + i
          invariant lines[..|old(lines)|] == old(lines)
          invariant forall k :: 0 <= k < i ==> lines[|old(lines)| + k] == LineFor(params[k])
        {
          var p := params[i];
          lines := lines + [LineFor(p)];
          i := i + 1;
        }
      }
    }
  }
}
