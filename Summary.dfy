/** The loan summary built from the actual payments: totals of what has been
    paid, the fixed/floating split of interest, the remaining balance and the
    interest accrued since the last due date. */
module Summary {
  import opened LoanTypes
  import opened Rates
  import opened Accrual
  import opened Payable
  import opened Ledger

  /** Interest paid by the payments dated strictly before `switchDay`. */
  function InterestPaidBefore(enriched: seq<EnrichedPayment>, switchDay: Day): real
  {
    if enriched == [] then 0.0
    else
      var e := enriched[|enriched| - 1];
      InterestPaidBefore(enriched[..|enriched| - 1], switchDay)
      + (if e.payment.paymentDate < switchDay then e.interestPaid else 0.0)
  }

  /** Interest paid by the payments dated on or after `switchDay`. */
  function InterestPaidFrom(enriched: seq<EnrichedPayment>, switchDay: Day): real
  {
    if enriched == [] then 0.0
    else
      var e := enriched[|enriched| - 1];
      InterestPaidFrom(enriched[..|enriched| - 1], switchDay)
      + (if e.payment.paymentDate < switchDay then 0.0 else e.interestPaid)
  }

  /** The fixed-period and floating-period interest partition the interest paid. */
  lemma {:induction false} InterestSplitsAtSwitch(enriched: seq<EnrichedPayment>, switchDay: Day)
    ensures InterestPaidBefore(enriched, switchDay) + InterestPaidFrom(enriched, switchDay) == SumInterest(enriched)
  {
    if enriched != [] {
      InterestSplitsAtSwitch(enriched[..|enriched| - 1], switchDay);
    }
  }

  /** Unpaid accrued interest as seen at an instant during `today`, after its
      midnight: the latest due date on or before today is passed, and every day
      from it up to and including today accrues, at the regime rate, on the
      balance left after the payments dated on or before that due date. */
  function UnpaidAccruedDuring(today: Day, p: LoanParams, switchDay: Day,
                               payments: seq<EnrichedPayment>, schedule: seq<ScheduledPayment>): real
  {
    var last := AccrualStart(p, schedule, today);
    RegimeInterest(BalanceOn(p.principal, ToStepDowns(payments), last), p, switchDay, last, today + 1)
  }

  /** Seen during a day, the unpaid accrued interest is the midnight figure of
      the next day, as long as nothing falls due on that next day. */
  lemma DuringIsNextMidnight(today: Day, p: LoanParams, switchDay: Day,
                             payments: seq<EnrichedPayment>, schedule: seq<ScheduledPayment>)
    requires forall j :: 0 <= j < |schedule| ==> schedule[j].scheduledDate != today + 1
    ensures UnpaidAccruedDuring(today, p, switchDay, payments, schedule)
         == UnpaidAccruedInterest(today + 1, p, switchDay, payments, schedule)
  {
    var a := LastScheduledOnOrBefore(schedule, today);
    var b := LastScheduledOnOrBefore(schedule, today + 1);
    assert a == b by {
      if a.None? {
        assert b.None?;
      } else if b.None? {
        assert false;
      } else {
        var j :| 0 <= j < |schedule| && schedule[j].scheduledDate == b.value;
        assert b.value <= a.value;
      }
    }
  }

  method CalculateLoanSummary(schedule: seq<ScheduledPayment>, p: LoanParams, payments: seq<Payment>,
                              today: Day, addMonths: AddMonths)
    returns (s: LoanSummary)
    requires p.prepaymentFeePercentage != -100.0
    ensures var switchDay := FixedPeriodEnd(p, addMonths);
            var l := Simulate(p, switchDay, schedule, payments, today);
            && s.totalInterestPaid == SumInterest(l.enriched)
            && s.totalPrincipalPaid == SumPrincipal(l.enriched)
            // every unit of interest accrued up to today is paid, payable or still accruing
            && s.totalInterestPaid + l.payableInterest + l.accrued
               == InterestAccruedThrough(p, switchDay, schedule, payments, today)
            && s.totalAmountPaid == s.totalInterestPaid + s.totalPrincipalPaid
            && s.remainingBalance == Max(0.0, p.principal - s.totalPrincipalPaid)
            && s.fixedPeriodInterest == InterestPaidBefore(l.enriched, switchDay)
            && s.floatingPeriodInterest == InterestPaidFrom(l.enriched, switchDay)
            && s.fixedPeriodInterest + s.floatingPeriodInterest == s.totalInterestPaid
            && s.numberOfPayments == |schedule|
            && s.actualPaymentsMade == |payments|
            && s.unpaidAccruedInterest == UnpaidAccruedDuring(today, p, switchDay, l.enriched, schedule)
  {
    var enrichedPayments := EnrichPaymentsWithBreakdownUpTo(today, payments, p, schedule, addMonths);
    var fixedPeriodEndDate := FixedPeriodEnd(p, addMonths);
    var totalInterestPaid, totalPrincipalPaid, fixedPeriodInterest, floatingPeriodInterest
      := TotalsPaid(enrichedPayments, fixedPeriodEndDate);
    InterestSplitsAtSwitch(enrichedPayments, fixedPeriodEndDate);
    SimulateConservesInterest(p, fixedPeriodEndDate, schedule, payments, today);
    var remainingBalance := Max(0.0, p.principal - totalPrincipalPaid);
    var unpaidAccruedInterest := UnpaidAccruedNow(today, p, enrichedPayments, schedule, addMonths);
    s := LoanSummary(totalInterestPaid, totalPrincipalPaid, totalInterestPaid + totalPrincipalPaid, remainingBalance,
                     fixedPeriodInterest, floatingPeriodInterest, |schedule|, |payments|, unpaidAccruedInterest);
  }

  /** Sums the interest and principal paid over the enriched payments, and
      splits the interest by whether the payment falls before `switchDay`. */
  method TotalsPaid(enrichedPayments: seq<EnrichedPayment>, switchDay: Day)
    returns (totalInterestPaid: real, totalPrincipalPaid: real, fixedPeriodInterest: real, floatingPeriodInterest: real)
    ensures totalInterestPaid == SumInterest(enrichedPayments)
    ensures totalPrincipalPaid == SumPrincipal(enrichedPayments)
    ensures fixedPeriodInterest == InterestPaidBefore(enrichedPayments, switchDay)
    ensures floatingPeriodInterest == InterestPaidFrom(enrichedPayments, switchDay)
  {
    totalInterestPaid := 0.0;
    totalPrincipalPaid := 0.0;
    fixedPeriodInterest := 0.0;
    floatingPeriodInterest := 0.0;
    for i := 0 to |enrichedPayments|
      invariant totalInterestPaid == SumInterest(enrichedPayments[..i])
      invariant totalPrincipalPaid == SumPrincipal(enrichedPayments[..i])
      invariant fixedPeriodInterest == InterestPaidBefore(enrichedPayments[..i], switchDay)
      invariant floatingPeriodInterest == InterestPaidFrom(enrichedPayments[..i], switchDay)
    {
      var payment := enrichedPayments[i];
      assert enrichedPayments[..i + 1][..i] == enrichedPayments[..i];
      totalInterestPaid := totalInterestPaid + payment.interestPaid;
      totalPrincipalPaid := totalPrincipalPaid + payment.principalPaid;
      if payment.payment.paymentDate < switchDay {
        fixedPeriodInterest := fixedPeriodInterest + payment.interestPaid;
      } else {
        floatingPeriodInterest := floatingPeriodInterest + payment.interestPaid;
      }
    }
    assert enrichedPayments[..|enrichedPayments|] == enrichedPayments;
  }

  /** The unpaid accrued interest the summary reports: the accrual of
      `calculatePayableInterestUpTo` run at the current instant, which lies
      after today's midnight, so that no due date on or before it is still
      ahead and the day walk covers today as well. */
  method UnpaidAccruedNow(today: Day, p: LoanParams, payments: seq<EnrichedPayment>,
                          schedule: seq<ScheduledPayment>, addMonths: AddMonths)
    returns (accruedInterest: real)
    ensures accruedInterest == UnpaidAccruedDuring(today, p, FixedPeriodEnd(p, addMonths), payments, schedule)
  {
    var lastScheduledDate := match LastScheduledOnOrBefore(schedule, today)
                             case None => p.startDate
                             case Some(d) => d;
    var totalPrincipalPaidByLastScheduled := AmountOnOrBefore(ToStepDowns(payments), lastScheduledDate);
    var remainingPrincipal := p.principal - totalPrincipalPaidByLastScheduled;
    accruedInterest := AccrueDays(remainingPrincipal, p, FixedPeriodEnd(p, addMonths), lastScheduledDate, today + 1);
  }
}
