/** The payment allocation engine: how one payment is split between interest,
    principal and the prepayment fee, plus the older capped variant and the
    running balance built on it. */
module Allocation {
  import opened LoanTypes

  /** The fee charged on a prepaid principal amount. */
  function CalculatePrepaymentFee(prepaymentAmount: real, feePercentage: real): (fee: real)
    ensures fee * 100.0 == prepaymentAmount * feePercentage
    ensures prepaymentAmount >= 0.0 && feePercentage >= 0.0 ==> fee >= 0.0
    ensures prepaymentAmount >= 0.0 && 0.0 <= feePercentage <= 100.0 ==> fee <= prepaymentAmount
  {
    (prepaymentAmount * feePercentage) / 100.0
  }

  /** The fee on the part of a payment that exceeds the scheduled amount. */
  function CalculatePaymentPrepaymentFee(paymentAmount: real, scheduledPaymentAmount: real, feePercentage: real): (fee: real)
    ensures paymentAmount <= scheduledPaymentAmount ==> fee == 0.0
    ensures paymentAmount > scheduledPaymentAmount
         ==> fee == CalculatePrepaymentFee(paymentAmount - scheduledPaymentAmount, feePercentage)
    ensures feePercentage >= 0.0 ==> fee >= 0.0
  {
    if paymentAmount <= scheduledPaymentAmount then 0.0
    else CalculatePrepaymentFee(paymentAmount - scheduledPaymentAmount, feePercentage)
  }

  /** The canonical allocation: payable interest first, then payable principal,
      and whatever is left is a prepayment split into principal and a fee so that
      principal plus fee-on-principal uses up the remainder.
      The payable-principal part of the result is `principalPaid - prepaymentAmount`. */
  function GetPaymentBreakdown(paymentAmount: real, payablePrincipal: real, payableInterest: real,
                               prepaymentFeePercentage: real): (r: EnrichedPaymentInfo)
    requires prepaymentFeePercentage != -100.0
    // every unit of the payment is accounted for
    ensures r.interestPaid + r.principalPaid + r.prepaymentFee == paymentAmount
    // interest has the first claim
    ensures r.interestPaid <= payableInterest && r.interestPaid <= paymentAmount
    ensures r.interestPaid == paymentAmount || r.interestPaid == payableInterest
    ensures payableInterest >= paymentAmount
         ==> r.principalPaid == 0.0 && r.prepaymentFee == 0.0 && r.prepaymentAmount == 0.0
    // payable principal has the second claim and is never overpaid
    ensures 0.0 <= r.principalPaid - r.prepaymentAmount
    ensures payablePrincipal >= 0.0 ==> r.principalPaid - r.prepaymentAmount <= payablePrincipal
    ensures r.principalPaid - r.prepaymentAmount == Max(Min(paymentAmount - r.interestPaid, payablePrincipal), 0.0)
    // a prepayment happens only once all payable interest and principal are covered
    ensures r.prepaymentAmount != 0.0
         ==> r.interestPaid == payableInterest && r.principalPaid - r.prepaymentAmount == Max(payablePrincipal, 0.0)
    // the fee is the fee percentage of the prepaid principal
    ensures r.prepaymentFee == CalculatePrepaymentFee(r.prepaymentAmount, prepaymentFeePercentage)
    ensures prepaymentFeePercentage > -100.0 ==> r.prepaymentAmount >= 0.0
    ensures prepaymentFeePercentage >= 0.0 ==> r.prepaymentFee >= 0.0
  {
    var interestPaid := Min(paymentAmount, payableInterest);
    var remaining := paymentAmount - interestPaid;
    var payablePrincipalPaid := Max(Min(remaining, payablePrincipal), 0.0);
    var excess := remaining - payablePrincipalPaid;
    var prepaymentPrincipal := if excess > 0.0 then excess / (1.0 + prepaymentFeePercentage / 100.0) else 0.0;
    var prepaymentFee := if excess > 0.0 then excess - prepaymentPrincipal else 0.0;
    PrepaymentSplit(excess, prepaymentFeePercentage, prepaymentPrincipal, prepaymentFee);
    EnrichedPaymentInfo(payablePrincipalPaid + prepaymentPrincipal, interestPaid, prepaymentFee, prepaymentPrincipal)
  }

  /** Solving `principal + principal * fee% / 100 = excess`: the split uses up the
      excess and the fee is the percentage of the principal part. */
  lemma PrepaymentSplit(excess: real, feePercentage: real, principal: real, fee: real)
    requires feePercentage != -100.0
    requires principal == (if excess > 0.0 then excess / (1.0 + feePercentage / 100.0) else 0.0)
    requires fee == (if excess > 0.0 then excess - principal else 0.0)
    ensures excess > 0.0 ==> principal + fee == excess
    ensures fee * 100.0 == principal * feePercentage
    ensures feePercentage > -100.0 && excess > 0.0 ==> principal > 0.0
    ensures feePercentage >= 0.0 ==> fee >= 0.0
    ensures principal != 0.0 ==> excess > 0.0
  {
    if excess > 0.0 {
      var d := 1.0 + feePercentage / 100.0;
      assert principal * d == excess;
      assert fee == principal * d - principal;
      if feePercentage > -100.0 {
        assert d > 0.0;
      }
      if feePercentage >= 0.0 {
        assert d >= 1.0;
        assert principal * d >= principal;
      }
    }
  }

  /** The split returned by the older allocation variant. */
  datatype PaymentSplit = PaymentSplit(principalPaid: real, interestPaid: real, prepaymentFee: real)

  /** The older allocation: accrued interest first, the rest to principal less a
      fee when a fee percentage is set, with principal capped at the remaining
      balance and the capped-off amount counted as fee. */
  function CalculatePaymentBreakdown(paymentAmount: real, accruedInterest: real, remainingBalance: real,
                                     prepaymentFeePercentage: real): (r: PaymentSplit)
    ensures paymentAmount <= 0.0 ==> r == PaymentSplit(0.0, 0.0, 0.0)
    ensures paymentAmount > 0.0 ==> r.interestPaid + r.principalPaid + r.prepaymentFee == paymentAmount
    ensures paymentAmount > 0.0 ==> r.principalPaid <= remainingBalance
    ensures paymentAmount > 0.0 ==> r.interestPaid == Min(paymentAmount, accruedInterest)
    // without a fee percentage the whole remainder goes to principal, up to the balance
    ensures paymentAmount > 0.0 && prepaymentFeePercentage <= 0.0
         ==> r.principalPaid == Min(paymentAmount - r.interestPaid, remainingBalance)
    // with a fee percentage, principal is the part of the remainder that pays its
    // own fee, up to the balance
    ensures paymentAmount > 0.0 && prepaymentFeePercentage > 0.0
         ==> r.principalPaid == Min((paymentAmount - r.interestPaid) / (1.0 + prepaymentFeePercentage / 100.0),
                                    remainingBalance)
    // when the cap does not bite, the fee is the fee percentage of the principal
    ensures paymentAmount > 0.0 && prepaymentFeePercentage > 0.0 && r.principalPaid < remainingBalance
         ==> r.prepaymentFee == CalculatePrepaymentFee(r.principalPaid, prepaymentFeePercentage)
  {
    if paymentAmount <= 0.0 then PaymentSplit(0.0, 0.0, 0.0)
    else
      var interestPaid := Min(paymentAmount, accruedInterest);
      var remainingAmount := paymentAmount - interestPaid;
      var principal := if prepaymentFeePercentage > 0.0 && remainingAmount > 0.0
                       then remainingAmount / (1.0 + prepaymentFeePercentage / 100.0)
                       else remainingAmount;
      var fee := if prepaymentFeePercentage > 0.0 && remainingAmount > 0.0
                 then remainingAmount - principal
                 else 0.0;
      assert prepaymentFeePercentage > 0.0 ==> fee * 100.0 == principal * prepaymentFeePercentage by {
        if prepaymentFeePercentage > 0.0 {
          PrepaymentSplit(remainingAmount, prepaymentFeePercentage, principal, fee);
        }
      }
      if principal > remainingBalance then
        PaymentSplit(remainingBalance, interestPaid, remainingAmount - remainingBalance)
      else
        PaymentSplit(principal, interestPaid, fee)
  }

  /** Sum of the positive payment amounts: the cash that can reach principal when
      no interest is owed and no fee is charged. */
  function PositiveAmounts(payments: seq<Payment>): real
  {
    if payments == [] then 0.0
    else PositiveAmounts(payments[..|payments| - 1]) + Max(payments[|payments| - 1].paymentAmount, 0.0)
  }

  /** The balance left after applying every payment wholly to principal, each
      capped at what is still owed. */
  method CalculateRemainingBalance(principal: real, payments: seq<Payment>) returns (balance: real)
    ensures balance == Max(0.0, principal - PositiveAmounts(payments))
  {
    var totalPrincipalPaid := 0.0;
    for i := 0 to |payments|
      invariant PositiveAmounts(payments[..i]) >= 0.0
      invariant totalPrincipalPaid
             == if PositiveAmounts(payments[..i]) == 0.0 then 0.0 else Min(principal, PositiveAmounts(payments[..i]))
    {
      assert payments[..i + 1][..i] == payments[..i];
      var breakdown := CalculatePaymentBreakdown(payments[i].paymentAmount, 0.0, principal - totalPrincipalPaid, 0.0);
      totalPrincipalPaid := totalPrincipalPaid + breakdown.principalPaid;
    }
    assert payments[..|payments|] == payments;
    balance := Max(0.0, principal - totalPrincipalPaid);
  }
}
