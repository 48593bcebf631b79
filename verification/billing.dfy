/** Billing: line subtotals, the derived amounts, the payment status, the bounded-value
    constraints and the four-state workflow of a bill. Money is exact (`real`). */
module Billing {
  import opened Wrappers

  datatype State = Draft | Confirmed | Paid | Cancelled

  /** The selection 'unpaid', 'partial', 'paid', 'refunded'. */
  datatype PaymentStatus = Unpaid | PartiallyPaid | FullyPaid | Refunded

  datatype Error =
    | PaidExceedsTotal
    | DiscountOutOfRange
    | TaxOutOfRange
    | NoBillingLines
    | QuantityNotPositive
    | NegativeUnitPrice

  /** One billing line: a quantity of a service at a unit price. */
  datatype Line = Line(quantity: real, unitPrice: real)
  {
    function Subtotal(): real { quantity * unitPrice }
  }

  /** A line is rejected when its quantity is not positive, else when its price is
      negative. */
  function CheckLine(line: Line): (o: Outcome<Error>)
    ensures o.Pass? <==> line.quantity > 0.0 && line.unitPrice >= 0.0
    ensures o == Fail(QuantityNotPositive) <==> line.quantity <= 0.0
    ensures o == Fail(NegativeUnitPrice) <==> line.quantity > 0.0 && line.unitPrice < 0.0
  {
    if line.quantity <= 0.0 then Fail(QuantityNotPositive)
    else if line.unitPrice < 0.0 then Fail(NegativeUnitPrice)
    else Pass
  }

  /** An accepted line never has a negative subtotal, and a priced one has a positive
      subtotal. */
  lemma AcceptedLineSubtotal(line: Line)
    requires CheckLine(line).Pass?
    ensures line.Subtotal() >= 0.0
    ensures line.unitPrice > 0.0 ==> line.Subtotal() > 0.0
  {
  }

  /** Sum of the line subtotals. */
  function SumSubtotals(lines: seq<Line>): real
  {
    if lines == [] then 0.0 else SumSubtotals(lines[..|lines| - 1]) + lines[|lines| - 1].Subtotal()
  }

  /** Adding lines adds their subtotals: the sum does not depend on how the lines are
      split. */
  lemma {:induction false} SumSubtotalsAppend(a: seq<Line>, b: seq<Line>)
    ensures SumSubtotals(a + b) == SumSubtotals(a) + SumSubtotals(b)
  {
    if b == [] {
      assert a + b == a;
    } else {
      var b' := b[..|b| - 1];
      assert (a + b)[..|a + b| - 1] == a + b';
      SumSubtotalsAppend(a, b');
    }
  }

  /** Lines that all pass their check sum to a non-negative subtotal. */
  lemma {:induction false} AcceptedLinesSumNonNegative(lines: seq<Line>)
    requires forall i :: 0 <= i < |lines| ==> CheckLine(lines[i]).Pass?
    ensures SumSubtotals(lines) >= 0.0
  {
    if lines != [] {
      AcceptedLinesSumNonNegative(lines[..|lines| - 1]);
      AcceptedLineSubtotal(lines[|lines| - 1]);
    }
  }

  /** `p` percent of `x`. */
  function PercentOf(x: real, p: real): real
  {
    (x * p) / 100.0
  }

  /** The derived amounts of a bill. */
  datatype Amounts = Amounts(subtotal: real, discountAmount: real, taxAmount: real, total: real, balance: real)

  /** The amounts, in dependency order: the discount applies to the subtotal, the tax to
      the amount after discount. */
  function ComputeAmounts(lines: seq<Line>, discountPercent: real, taxPercent: real, paid: real): (a: Amounts)
    ensures a.subtotal == SumSubtotals(lines)
    ensures a.discountAmount == a.subtotal * discountPercent / 100.0
    ensures a.taxAmount == (a.subtotal - a.discountAmount) * taxPercent / 100.0
    ensures a.total == a.subtotal - a.discountAmount + a.taxAmount
    ensures a.balance == a.total - paid
    ensures a.total == a.subtotal * (100.0 - discountPercent) * (100.0 + taxPercent) / 10000.0
  {
    var subtotal := SumSubtotals(lines);
    var discount := PercentOf(subtotal, discountPercent);
    var afterDiscount := subtotal - discount;
    var tax := PercentOf(afterDiscount, taxPercent);
    var total := afterDiscount + tax;
    Amounts(subtotal, discount, tax, total, total - paid)
  }

  /** A percentage in [0, 100] of a non-negative amount lies between nothing and the
      amount. */
  lemma PercentBounded(x: real, p: real)
    requires 0.0 <= x && 0.0 <= p <= 100.0
    ensures 0.0 <= PercentOf(x, p) <= x
  {
    assert 0.0 <= x * p;
    assert 0.0 <= x * (100.0 - p);
  }

  /** With accepted lines and percentages, the discount never exceeds the subtotal, the
      tax never exceeds the discounted amount, and the total lies between nothing and
      twice the subtotal. */
  lemma AcceptedAmountsBounded(lines: seq<Line>, discountPercent: real, taxPercent: real, paid: real)
    requires forall i :: 0 <= i < |lines| ==> CheckLine(lines[i]).Pass?
    requires CheckDiscountPercent(discountPercent).Pass? && CheckTaxPercent(taxPercent).Pass?
    ensures var a := ComputeAmounts(lines, discountPercent, taxPercent, paid);
            && 0.0 <= a.discountAmount <= a.subtotal
            && 0.0 <= a.taxAmount <= a.subtotal - a.discountAmount
            && 0.0 <= a.total <= 2.0 * a.subtotal
  {
    AcceptedLinesSumNonNegative(lines);
    var a := ComputeAmounts(lines, discountPercent, taxPercent, paid);
    PercentBounded(a.subtotal, discountPercent);
    PercentBounded(a.subtotal - a.discountAmount, taxPercent);
  }

  /** Two units at 50 with a 10% discount and 5% tax: 100, 10 off, 4.5 tax, 94.5 in all. */
  lemma WorkedExample()
    ensures var a := ComputeAmounts([Line(2.0, 50.0)], 10.0, 5.0, 0.0);
            a.subtotal == 100.0 && a.discountAmount == 10.0 && a.taxAmount == 4.5 && a.total == 94.5
  {
    assert SumSubtotals([Line(2.0, 50.0)]) == 100.0 by {
      assert [Line(2.0, 50.0)][..0] == [];
    }
  }

  /** The payment status, a function of the paid amount and the total only; `Refunded`
      is never produced. */
  function PaymentStatusOf(paid: real, total: real): (s: PaymentStatus)
    ensures s != Refunded
    ensures s == Unpaid <==> total <= 0.0 || paid <= 0.0
    ensures s == FullyPaid <==> 0.0 < total <= paid
    ensures s == PartiallyPaid <==> 0.0 < paid < total
  {
    if total <= 0.0 then Unpaid
    else if paid <= 0.0 then Unpaid
    else if paid >= total then FullyPaid
    else PartiallyPaid
  }

  /** Paying more never lowers the status: unpaid, then partially paid, then paid. */
  lemma PaymentStatusMonotone(paid: real, paid': real, total: real)
    requires paid <= paid'
    ensures PaymentStatusOf(paid, total) == FullyPaid ==> PaymentStatusOf(paid', total) == FullyPaid
    ensures PaymentStatusOf(paid, total) == PartiallyPaid ==> PaymentStatusOf(paid', total) != Unpaid
  {
  }

  function CheckPaidAmount(paid: real, total: real): (o: Outcome<Error>)
    ensures o.Fail? <==> paid > total
    ensures o.Fail? ==> o.error == PaidExceedsTotal
  {
    if paid > total then Fail(PaidExceedsTotal) else Pass
  }

  function CheckDiscountPercent(discountPercent: real): (o: Outcome<Error>)
    ensures o.Pass? <==> 0.0 <= discountPercent <= 100.0
    ensures o.Fail? ==> o.error == DiscountOutOfRange
  {
    if discountPercent < 0.0 || discountPercent > 100.0 then Fail(DiscountOutOfRange) else Pass
  }

  function CheckTaxPercent(taxPercent: real): (o: Outcome<Error>)
    ensures o.Pass? <==> 0.0 <= taxPercent <= 100.0
    ensures o.Fail? ==> o.error == TaxOutOfRange
  {
    if taxPercent < 0.0 || taxPercent > 100.0 then Fail(TaxOutOfRange) else Pass
  }

  /** A bill whose paid amount passed its check never owes a negative balance, and it owes
      nothing exactly when the status is paid (for a positive total). */
  lemma AcceptedBalanceNonNegative(lines: seq<Line>, discountPercent: real, taxPercent: real, paid: real)
    requires CheckPaidAmount(paid, ComputeAmounts(lines, discountPercent, taxPercent, paid).total).Pass?
    ensures ComputeAmounts(lines, discountPercent, taxPercent, paid).balance >= 0.0
    ensures var a := ComputeAmounts(lines, discountPercent, taxPercent, paid);
            a.total > 0.0 ==> (a.balance == 0.0 <==> PaymentStatusOf(paid, a.total) == FullyPaid)
  {
  }

  /** The workflow buttons of a bill. */
  datatype Action = Confirm | MarkAsPaid | Cancel | Reset

  /** The state an action leaves behind when it does not raise: confirm fires from draft,
      mark-as-paid from confirmed, cancel from draft or confirmed, reset from anywhere. */
  function Step(s: State, a: Action): State
  {
    match a
    case Confirm => if s == Draft then Confirmed else s
    case MarkAsPaid => if s == Confirmed then Paid else s
    case Cancel => if s == Draft || s == Confirmed then Cancelled else s
    case Reset => Draft
  }

  lemma StepGuards(s: State)
    ensures Step(s, Confirm) != s <==> s == Draft
    ensures Step(s, MarkAsPaid) != s <==> s == Confirmed
    ensures Step(s, Cancel) != s <==> s == Draft || s == Confirmed
    ensures Step(s, Reset) == Draft
  {
  }

  /** Pressing the same button twice does what pressing it once did. */
  lemma StepIdempotent(s: State, a: Action)
    ensures Step(Step(s, a), a) == Step(s, a)
  {
  }

  /** A paid bill cannot be cancelled; only a reset takes it, or a cancelled bill, back. */
  lemma FinalStatesOnlyReset(s: State, a: Action)
    requires (s == Paid || s == Cancelled) && a != Reset
    ensures Step(s, a) == s
  {
  }

  class Bill {
    var lines: seq<Line>
    var discountPercent: real
    var taxPercent: real
    var paidAmount: real
    var state: State

    /** A new draft bill with no discount, no tax and nothing paid; it meets every
        constraint as soon as its lines do. */
    constructor (lines: seq<Line>)
      ensures this.lines == lines && discountPercent == 0.0 && taxPercent == 0.0
      ensures paidAmount == 0.0 && state == Draft
      ensures (forall i :: 0 <= i < |lines| ==> CheckLine(lines[i]).Pass?) ==> Valid()
    {
      if forall i :: 0 <= i < |lines| ==> CheckLine(lines[i]).Pass? {
        AcceptedAmountsBounded(lines, 0.0, 0.0, 0.0);
      }
      this.lines := lines;
      discountPercent := 0.0;
      taxPercent := 0.0;
      paidAmount := 0.0;
      state := Draft;
    }

    function Amounts(): Amounts
      reads this
    {
      ComputeAmounts(lines, discountPercent, taxPercent, paidAmount)
    }

    function Status(): PaymentStatus
      reads this
    {
      PaymentStatusOf(paidAmount, Amounts().total)
    }

    /** All the bill's constraints: its lines, its paid amount and its percentages. */
    predicate Valid()
      reads this
    {
      && (forall i :: 0 <= i < |lines| ==> CheckLine(lines[i]).Pass?)
      && CheckPaidAmount(paidAmount, Amounts().total).Pass?
      && CheckDiscountPercent(discountPercent).Pass?
      && CheckTaxPercent(taxPercent).Pass?
    }

    /** Confirming a draft without lines raises and changes nothing; otherwise a draft
        becomes confirmed and any other state is left alone. */
    method ActionConfirm() returns (o: Outcome<Error>)
      modifies this`state
      ensures old(state) == Draft && lines == [] <==> o.Fail?
      ensures o.Fail? ==> o.error == NoBillingLines && state == old(state)
      ensures o.Pass? ==> state == Step(old(state), Confirm)
    {
      if state == Draft {
        if lines == [] {
          return Fail(NoBillingLines);
        }
        state := Confirmed;
      }
      o := Pass;
    }

    /** A confirmed bill is paid in full: the paid amount becomes the total and the state
        paid, so nothing is owed and, for a positive total, the status is paid. */
    method ActionMarkAsPaid()
      modifies this`paidAmount, this`state
      ensures state == Step(old(state), MarkAsPaid)
      ensures old(state) == Confirmed ==> paidAmount == Amounts().total && Amounts().balance == 0.0
      ensures old(state) == Confirmed && Amounts().total > 0.0 ==> Status() == FullyPaid
      ensures old(state) == Confirmed && old(Valid()) ==> Valid()
      ensures old(state) != Confirmed ==> paidAmount == old(paidAmount)
    {
      if state == Confirmed {
        paidAmount := Amounts().total;
        state := Paid;
      }
    }

    method ActionCancel()
      modifies this`state
      ensures state == Step(old(state), Cancel)
    {
      if state == Draft || state == Confirmed {
        state := Cancelled;
      }
    }

    method ActionResetToDraft()
      modifies this`state
      ensures state == Step(old(state), Reset)
    {
      state := Draft;
    }

    /** Picking an appointment (`fee` is its doctor's consultation fee, `None` when no
        appointment is picked) on a bill without lines adds one consultation line, one unit
        at the fee, when the fee is positive; a bill that has lines keeps them. */
    method OnchangeAppointment(fee: Option<real>)
      modifies this`lines
      ensures fee.Some? && old(lines) == [] && fee.value > 0.0 ==> lines == [Line(1.0, fee.value)]
      ensures fee.Some? && old(lines) == [] && fee.value > 0.0 ==> Amounts().subtotal == fee.value
      ensures !(fee.Some? && old(lines) == [] && fee.value > 0.0) ==> lines == old(lines)
    {
      if fee.Some? {
        if lines == [] && fee.value > 0.0 {
          lines := [Line(1.0, fee.value)];
          assert lines[..0] == [];
          assert SumSubtotals(lines) == 0.0 + Line(1.0, fee.value).Subtotal();
        }
      }
    }

    /** Entering a paid amount that covers a positive total moves a confirmed bill to
        paid; anything else leaves the state as it was. */
    method OnchangePaidAmount()
      modifies this`state
      ensures paidAmount >= Amounts().total && Amounts().total > 0.0 ==> state == Step(old(state), MarkAsPaid)
      ensures !(paidAmount >= Amounts().total && Amounts().total > 0.0) ==> state == old(state)
      ensures state == Paid && old(state) != Paid ==> Status() == FullyPaid
    {
      if paidAmount >= Amounts().total && Amounts().total > 0.0 {
        if state == Confirmed {
          state := Paid;
        }
      }
    }
  }
}
