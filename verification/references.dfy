/** The reference-assignment rule that every record type applies in `create`, over an
    abstract per-model sequence counter standing for `ir.sequence`. */
module References {
  import opened Wrappers

  /** The placeholder reference a record carries until a sequence value replaces it. */
  const NEW: string := "New"

  /** True when the supplied values ask for a generated reference: none given, or `New`. */
  predicate NeedsSequence(supplied: Option<string>)
  {
    supplied.None? || supplied.value == NEW
  }

  /** The reference a record is created with, given what the caller supplied and what the
      sequence returned (`None` when the sequence is not configured). */
  function ReferenceFor(supplied: Option<string>, generated: Option<string>): (r: string)
    ensures !NeedsSequence(supplied) ==> r == supplied.value
    ensures NeedsSequence(supplied) && generated.Some? ==> r == generated.value
    ensures NeedsSequence(supplied) && generated.None? ==> r == NEW
  {
    if NeedsSequence(supplied) then
      (if generated.Some? then generated.value else NEW)
    else supplied.value
  }

  /** The decimal digit of `d`. */
  function Digit(d: nat): char
    requires d < 10
  {
    "0123456789"[d]
  }

  /** Decimal notation of `n`, most significant digit first. */
  function Digits(n: nat): (s: string)
    ensures 1 <= |s|
    ensures n < 10 <==> |s| == 1
  {
    if n < 10 then [Digit(n)] else Digits(n / 10) + [Digit(n % 10)]
  }

  /** Two numbers with the same decimal notation are equal, so a counter never hands out
      the same reference twice. */
  lemma {:induction false} DigitsInjective(n: nat, m: nat)
    requires Digits(n) == Digits(m)
    ensures n == m
  {
    if n < 10 || m < 10 {
      assert |Digits(n)| == 1 && |Digits(m)| == 1;
      assert Digits(n)[0] == Digits(m)[0];
    } else {
      var dn, dm := Digits(n), Digits(m);
      assert dn[|dn| - 1] == Digit(n % 10) && dm[|dm| - 1] == Digit(m % 10);
      assert n % 10 == m % 10;
      assert Digits(n / 10) == dn[..|dn| - 1] == dm[..|dm| - 1] == Digits(m / 10);
      DigitsInjective(n / 10, m / 10);
    }
  }

  /** Number of entries of `supplied` that ask for a generated reference. */
  function CountNeeding(supplied: seq<Option<string>>): (k: nat)
    ensures k <= |supplied|
  {
    if supplied == [] then 0
    else CountNeeding(supplied[..|supplied| - 1])
         + (if NeedsSequence(supplied[|supplied| - 1]) then 1 else 0)
  }

  /** Counting over a prefix never decreases as the prefix grows, and strictly increases
      past an entry that needs a reference. */
  lemma {:induction false} CountNeedingGrows(supplied: seq<Option<string>>, i: nat, j: nat)
    requires i < j <= |supplied|
    ensures CountNeeding(supplied[..i]) + (if NeedsSequence(supplied[i]) then 1 else 0)
            <= CountNeeding(supplied[..j])
  {
    if j == i + 1 {
      assert supplied[..j][..|supplied[..j]| - 1] == supplied[..i];
    } else {
      CountNeedingGrows(supplied, i, j - 1);
      assert supplied[..j][..|supplied[..j]| - 1] == supplied[..j - 1];
    }
  }

  /** The per-model sequence: a counter, with the prefix its configuration gives the
      references. An unconfigured sequence returns nothing. */
  class Sequence {
    const configured: bool
    const prefix: string
    var nextNumber: nat

    constructor (configured: bool, prefix: string, start: nat)
      ensures this.configured == configured && this.prefix == prefix && nextNumber == start
    {
      this.configured := configured;
      this.prefix := prefix;
      nextNumber := start;
    }

    /** The code for the current number, when configured; the counter then moves on. */
    function CodeFor(n: nat): string
    {
      prefix + Digits(n)
    }

    method NextByCode() returns (code: Option<string>)
      modifies this`nextNumber
      ensures configured ==> code == Some(CodeFor(old(nextNumber))) && nextNumber == old(nextNumber) + 1
      ensures !configured ==> code == None && nextNumber == old(nextNumber)
    {
      if configured {
        code := Some(CodeFor(nextNumber));
        nextNumber := nextNumber + 1;
      } else {
        code := None;
      }
    }

    /** Distinct counter values give distinct codes. */
    lemma CodesDistinct(n: nat, m: nat)
      requires n != m
      ensures CodeFor(n) != CodeFor(m)
    {
      if CodeFor(n) == CodeFor(m) {
        assert Digits(n) == CodeFor(n)[|prefix|..] == CodeFor(m)[|prefix|..] == Digits(m);
        DigitsInjective(n, m);
      }
    }
  }

  /** The reference entry `k` of `supplied` receives when the sequence stood at `start`
      before the batch: entries needing a reference consume consecutive numbers. */
  function Planned(sequence: Sequence, start: nat, supplied: seq<Option<string>>, k: nat): string
    requires k < |supplied|
  {
    ReferenceFor(supplied[k],
                 if sequence.configured then Some(sequence.CodeFor(start + CountNeeding(supplied[..k]))) else None)
  }

  /** Two entries that both need a reference are planned different references. */
  lemma PlannedDistinct(sequence: Sequence, start: nat, supplied: seq<Option<string>>, i: nat, j: nat)
    requires sequence.configured
    requires i < j < |supplied| && NeedsSequence(supplied[i]) && NeedsSequence(supplied[j])
    ensures Planned(sequence, start, supplied, i) != Planned(sequence, start, supplied, j)
  {
    var a, b := start + CountNeeding(supplied[..i]), start + CountNeeding(supplied[..j]);
    CountNeedingGrows(supplied, i, j);
    sequence.CodesDistinct(a, b);
  }

  /** `create` over a list of value dictionaries: each entry without a reference (or with
      `New`) takes the next sequence code, or keeps `New` when the sequence yields nothing;
      a supplied reference is kept. Generated references are pairwise distinct. */
  method AssignReferences(sequence: Sequence, supplied: seq<Option<string>>) returns (refs: seq<string>)
    modifies sequence`nextNumber
    ensures |refs| == |supplied|
    ensures sequence.nextNumber
            == old(sequence.nextNumber) + (if sequence.configured then CountNeeding(supplied) else 0)
    ensures forall k :: 0 <= k < |supplied| ==> refs[k] == Planned(sequence, old(sequence.nextNumber), supplied, k)
    ensures sequence.configured ==>
              forall i, j :: 0 <= i < j < |supplied| && NeedsSequence(supplied[i]) && NeedsSequence(supplied[j])
                ==> refs[i] != refs[j]
  {
    ghost var start := sequence.nextNumber;
    refs := [];
    var i := 0;
    while i < |supplied|
      invariant 0 <= i <= |supplied|
      invariant |refs| == i
      invariant sequence.nextNumber == start + (if sequence.configured then CountNeeding(supplied[..i]) else 0)
      invariant forall k :: 0 <= k < i ==> refs[k] == Planned(sequence, start, supplied, k)
    {
      assert supplied[..i + 1][..i] == supplied[..i];
      var ref;
      if NeedsSequence(supplied[i]) {
        var code := sequence.NextByCode();
        ref := ReferenceFor(supplied[i], code);
      } else {
        ref := ReferenceFor(supplied[i], None);
      }
      assert ref == Planned(sequence, start, supplied, i);
      refs := refs + [ref];
      i := i + 1;
    }
    assert supplied[..|supplied|] == supplied;
    if sequence.configured {
      forall i, j | 0 <= i < j < |supplied| && NeedsSequence(supplied[i]) && NeedsSequence(supplied[j])
        ensures refs[i] != refs[j]
      {
        PlannedDistinct(sequence, start, supplied, i, j);
      }
    }
  }
}
