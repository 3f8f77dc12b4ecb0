/**
 * The cancellation refund policy: `RefundRuleFactory.getRefundRule` picks one
 * of three stateless rules from the number of days left before check-in, and
 * each rule's `calculateRefund(total)` gives the amount WITHHELD from the
 * guest (the part of the total the host keeps), not the amount paid back.
 * Amounts are exact reals; floating-point rounding is not modelled.
 */
module Cancelation {

  /** The three strategies; the union is closed. */
  datatype RefundRule = FullRefund | PartialRefund | NoRefund {

    /** The share of the total that the rule withholds. */
    function WithheldShare(): (f: real)
      ensures 0.0 <= f <= 1.0
    {
      match this
      case FullRefund => 0.0
      case PartialRefund => 0.5
      case NoRefund => 1.0
    }

    /** `calculateRefund(total)`: the amount withheld, that is the rule's share of the total. */
    function CalculateRefund(total: real): (withheld: real)
      ensures withheld == total * WithheldShare()
      ensures total >= 0.0 ==> 0.0 <= withheld <= total
    {
      match this
      case FullRefund => 0.0
      case PartialRefund => total * 0.5
      case NoRefund => total
    }

    /** What the guest gets back: the complement of the amount withheld. */
    function AmountReturned(total: real): (back: real)
      ensures back + CalculateRefund(total) == total
      ensures total >= 0.0 ==> 0.0 <= back <= total
    {
      total - CalculateRefund(total)
    }
  }

  /** The cut-off above which the guest is charged nothing. */
  const FullRefundAfterDays: int := 7
  /** The smallest lead time that still earns half back. */
  const PartialRefundFromDays: int := 1

  /** `RefundRuleFactory.getRefundRule(days)`: total over all integers, including negative ones. */
  function GetRefundRule(daysUntilCheckIn: int): (rule: RefundRule)
    ensures rule == FullRefund <==> daysUntilCheckIn > FullRefundAfterDays
    ensures rule == PartialRefund <==> PartialRefundFromDays <= daysUntilCheckIn <= FullRefundAfterDays
    ensures rule == NoRefund <==> daysUntilCheckIn < PartialRefundFromDays
  {
    if daysUntilCheckIn > FullRefundAfterDays then FullRefund
    else if daysUntilCheckIn >= PartialRefundFromDays then PartialRefund
    else NoRefund
  }

  /** The amount withheld when cancelling `daysUntilCheckIn` days before check-in a stay that cost `total`. */
  function WithheldOnCancel(daysUntilCheckIn: int, total: real): (withheld: real)
    ensures total >= 0.0 ==> 0.0 <= withheld <= total
    ensures daysUntilCheckIn > FullRefundAfterDays ==> withheld == 0.0
    ensures PartialRefundFromDays <= daysUntilCheckIn <= FullRefundAfterDays ==> withheld == total * 0.5
    ensures daysUntilCheckIn < PartialRefundFromDays ==> withheld == total
  {
    GetRefundRule(daysUntilCheckIn).CalculateRefund(total)
  }

  /** The boundary values and the amounts the factory's tests use. */
  lemma FactoryExamples()
    ensures GetRefundRule(8) == FullRefund && FullRefund.CalculateRefund(1000.0) == 0.0
    ensures GetRefundRule(5) == PartialRefund && PartialRefund.CalculateRefund(1000.0) == 500.0
    ensures GetRefundRule(0) == NoRefund && NoRefund.CalculateRefund(1000.0) == 1000.0
    ensures GetRefundRule(7) == PartialRefund && GetRefundRule(1) == PartialRefund
    ensures GetRefundRule(-5) == NoRefund
  {
  }

  /** Cancelling later never withholds less: the withheld share is non-increasing in the lead time. */
  lemma WithheldShareMonotone(earlier: int, later: int)
    requires later <= earlier
    ensures GetRefundRule(later).WithheldShare() >= GetRefundRule(earlier).WithheldShare()
  {
    if earlier > FullRefundAfterDays {
      assert GetRefundRule(earlier).WithheldShare() == 0.0;
    } else if earlier >= PartialRefundFromDays {
      assert later <= FullRefundAfterDays;
    } else {
      assert GetRefundRule(later) == NoRefund;
    }
  }

  /** For a non-negative total, the amount withheld never decreases as check-in approaches. */
  lemma WithheldMonotone(earlier: int, later: int, total: real)
    requires later <= earlier
    requires total >= 0.0
    ensures WithheldOnCancel(later, total) >= WithheldOnCancel(earlier, total)
  {
    WithheldShareMonotone(earlier, later);
    var a, b := GetRefundRule(later).WithheldShare(), GetRefundRule(earlier).WithheldShare();
    assert total * a >= total * b by {
      assert total * (a - b) >= 0.0;
    }
  }

  /** On a total of whole currency units that is even, the half withheld is itself a whole amount: no rounding arises. */
  lemma PartialRefundOfEvenTotal(total: int)
    requires total % 2 == 0
    ensures PartialRefund.CalculateRefund(total as real) == (total / 2) as real
    ensures PartialRefund.AmountReturned(total as real) == (total / 2) as real
  {
    var half := total / 2;
    assert total == 2 * half;
    assert total as real == 2.0 * (half as real);
  }
}
