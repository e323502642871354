/** The financial figures the tracker derives: the additional amount asked for
    at final authorization, the gap between bill and approval, and the
    escalation decision on that gap. */
module Figures {
  import opened Records

  /** Gap percentages strictly above this call for escalation. */
  const EscalationThresholdPercent: real := 20.0

  /** `max(0, finalBill - preAuthApproved)`: the least non-negative amount
      that covers the part of the bill the pre-authorization does not. */
  function AdditionalAmount(finalBill: Money, preAuthApproved: Money): (r: Money)
    ensures r >= 0 && r >= finalBill - preAuthApproved
    ensures r == 0 || r == finalBill - preAuthApproved
  {
    if finalBill - preAuthApproved > 0 then finalBill - preAuthApproved else 0
  }

  /** The shortfall as a percentage of the bill, 0 for a zero bill. */
  function GapPercentage(billed: Money, approved: Money): (p: real)
    ensures billed == 0 ==> p == 0.0
    ensures billed != 0 ==> p * (billed as real) == ((billed - approved) as real) * 100.0
  {
    if billed != 0 then ((billed - approved) as real) / (billed as real) * 100.0 else 0.0
  }

  predicate RequiresEscalation(billed: Money, approved: Money)
  {
    GapPercentage(billed, approved) > EscalationThresholdPercent
  }

  /** With `p * b == g * 100` and a positive `b`, `p` exceeds 20 exactly when
      `g * 100` exceeds `20 * b`. */
  lemma ThresholdPositive(p: real, b: real, g: real)
    requires b > 0.0 && p * b == g * 100.0
    ensures p > 20.0 <==> g * 100.0 > 20.0 * b
  {
    if p > 20.0 {
      assert (p - 20.0) * b > 0.0;
    } else {
      assert (20.0 - p) * b >= 0.0;
    }
  }

  /** With a negative `b` the comparison flips. */
  lemma ThresholdNegative(p: real, b: real, g: real)
    requires b < 0.0 && p * b == g * 100.0
    ensures p > 20.0 <==> g * 100.0 < 20.0 * b
  {
    if p > 20.0 {
      assert (p - 20.0) * b < 0.0;
    } else {
      assert (20.0 - p) * b <= 0.0;
    }
  }

  lemma EscalationPositiveBill(billed: Money, approved: Money)
    requires billed > 0
    ensures RequiresEscalation(billed, approved) <==> (billed - approved) * 100 > 20 * billed
  {
    ThresholdPositive(GapPercentage(billed, approved), billed as real, (billed - approved) as real);
  }

  lemma EscalationNegativeBill(billed: Money, approved: Money)
    requires billed < 0
    ensures RequiresEscalation(billed, approved) <==> (billed - approved) * 100 < 20 * billed
  {
    ThresholdNegative(GapPercentage(billed, approved), billed as real, (billed - approved) as real);
  }

  /** The escalation decision as an exact integer comparison: for a positive
      bill, the gap exceeds a fifth of it; for a negative bill the division
      flips the comparison; a zero bill never escalates. */
  lemma EscalationByIntegers(billed: Money, approved: Money)
    ensures billed > 0 ==>
      (RequiresEscalation(billed, approved) <==> (billed - approved) * 100 > 20 * billed)
    ensures billed < 0 ==>
      (RequiresEscalation(billed, approved) <==> (billed - approved) * 100 < 20 * billed)
    ensures billed == 0 ==> !RequiresEscalation(billed, approved)
  {
    if billed > 0 {
      EscalationPositiveBill(billed, approved);
    } else if billed < 0 {
      EscalationNegativeBill(billed, approved);
    }
  }

  /** For a positive factor, comparing products is comparing the other factors. */
  lemma ScaleByPositive(p: real, q: real, b: real)
    requires b > 0.0
    ensures p > q <==> p * b > q * b
  {
    if p > q {
      assert (p - q) * b > 0.0;
    } else {
      assert (q - p) * b >= 0.0;
    }
  }

  /** A positive factor cancels from both sides of an equation. */
  lemma CancelPositive(p: real, q: real, b: real)
    requires b > 0.0 && p * b == q * b
    ensures p == q
  {
    ScaleByPositive(p, q, b);
    ScaleByPositive(q, p, b);
  }

  /** The threshold itself does not escalate: a gap of exactly a fifth of a
      positive bill is 20 percent, and only a larger gap escalates. */
  lemma EscalationBoundary(billed: Money, approved: Money)
    requires billed > 0
    ensures (billed - approved) * 5 == billed ==>
      GapPercentage(billed, approved) == 20.0 && !RequiresEscalation(billed, approved)
    ensures (billed - approved) * 5 > billed ==> RequiresEscalation(billed, approved)
    ensures (billed - approved) * 5 < billed ==> !RequiresEscalation(billed, approved)
  {
    EscalationPositiveBill(billed, approved);
    if (billed - approved) * 5 == billed {
      var b, g := billed as real, (billed - approved) as real;
      assert g * 100.0 == 20.0 * b;
      CancelPositive(GapPercentage(billed, approved), 20.0, b);
    }
  }
}
