/** The flat repayment schedule the seed data is generated with: equal
    principal installments, one every payment period from the loan start. */
module Seed {
  import opened LoanTypes

  /** Payments per year as the schedule generator reads the frequency: any
      unrecognised name counts as annual (1). */
  function SeedPaymentsPerYear(paymentFrequency: string): (n: int)
    ensures n in {1, 2, 4, 12}
    ensures n == 12 <==> paymentFrequency == "monthly"
    ensures n == 4 <==> paymentFrequency == "quarterly"
    ensures n == 2 <==> paymentFrequency == "semi-annual"
  {
    if paymentFrequency == "monthly" then 12
    else if paymentFrequency == "quarterly" then 4
    else if paymentFrequency == "semi-annual" then 2
    else 1
  }

  /** The least integer not below `x`. */
  function Ceil(x: real): (c: int)
    ensures c as real >= x && (c - 1) as real < x
  {
    -((-x).Floor)
  }

  /** How many installments cover the term: the term in years times the
      payments per year, rounded up. */
  function InstallmentCount(totalTermMonths: int, paymentFrequency: string): int
  {
    Ceil((totalTermMonths as real / 12.0) * SeedPaymentsPerYear(paymentFrequency) as real)
  }

  /** The installments cover the whole term and the last one is not superfluous:
      their periods reach the end of the term, and one fewer would fall short. */
  lemma InstallmentsCoverTerm(totalTermMonths: int, paymentFrequency: string)
    requires totalTermMonths > 0
    ensures var n := InstallmentCount(totalTermMonths, paymentFrequency);
            var m := 12 / SeedPaymentsPerYear(paymentFrequency);
            && n > 0
            && n * m >= totalTermMonths
            && (n - 1) * m < totalTermMonths
  {
    var ppy := SeedPaymentsPerYear(paymentFrequency);
    var n := InstallmentCount(totalTermMonths, paymentFrequency);
    var m := 12 / ppy;
    var x := (totalTermMonths as real / 12.0) * ppy as real;
    assert m * ppy == 12;
    assert x * (m as real) == totalTermMonths as real;
    assert n as real >= x && (n - 1) as real < x;
    assert (n as real) * (m as real) >= x * (m as real);
    assert ((n - 1) as real) * (m as real) < x * (m as real);
  }

  /** Scheduled principal summed over a run of installments. */
  function SumScheduledPrincipal(rows: seq<ScheduledPayment>): real
  {
    if rows == [] then 0.0
    else SumScheduledPrincipal(rows[..|rows| - 1]) + rows[|rows| - 1].scheduledPrincipalAmount
  }

  lemma {:induction false} EqualInstallmentsSum(rows: seq<ScheduledPayment>, amount: real)
    requires forall i :: 0 <= i < |rows| ==> rows[i].scheduledPrincipalAmount == amount
    ensures SumScheduledPrincipal(rows) == (|rows| as real) * amount
  {
    if rows != [] {
      EqualInstallmentsSum(rows[..|rows| - 1], amount);
    }
  }

  /** Every date lies after `startDate` and the dates strictly increase. */
  ghost predicate IncreasingAfter(rows: seq<ScheduledPayment>, startDate: Day)
  {
    && (forall i :: 0 <= i < |rows| ==> startDate < rows[i].scheduledDate)
    && (forall i, j :: 0 <= i < j < |rows| ==> rows[i].scheduledDate < rows[j].scheduledDate)
  }

  /** Dates chained by a forward-moving month addition, one period apart, start
      after the start date and strictly increase. */
  lemma {:induction false} ChainIncreases(rows: seq<ScheduledPayment>, startDate: Day, months: int, addMonths: AddMonths)
    requires months > 0
    requires |rows| > 0 ==> rows[0].scheduledDate == addMonths(startDate, months)
    requires forall i :: 0 < i < |rows| ==> rows[i].scheduledDate == addMonths(rows[i - 1].scheduledDate, months)
    ensures MonthsAdvance(addMonths) ==> IncreasingAfter(rows, startDate)
  {
    if |rows| > 0 && MonthsAdvance(addMonths) {
      var init := rows[..|rows| - 1];
      ChainIncreases(init, startDate, months, addMonths);
      var n := |rows| - 1;
      if n > 0 {
        assert rows[n].scheduledDate > rows[n - 1].scheduledDate;
        assert init[n - 1] == rows[n - 1];
      }
      forall i | 0 <= i < n
        ensures startDate < rows[i].scheduledDate && rows[i].scheduledDate < rows[n].scheduledDate
      {
        assert init[i] == rows[i];
        if i < n - 1 {
          assert init[i].scheduledDate < init[n - 1].scheduledDate;
        }
      }
    }
  }

  /** The schedule rows: installment `i` (numbered from 1) falls one payment
      period after the previous date, and every installment carries the same
      share of the principal. */
  method GenerateScheduledPayments(principal: real, startDate: Day, totalTermMonths: int,
                                   paymentFrequency: string, addMonths: AddMonths)
    returns (scheduledPayments: seq<ScheduledPayment>)
    ensures |scheduledPayments| == if InstallmentCount(totalTermMonths, paymentFrequency) > 0
                                   then InstallmentCount(totalTermMonths, paymentFrequency) else 0
    ensures forall i :: 0 <= i < |scheduledPayments| ==> scheduledPayments[i].paymentNumber == i + 1
    ensures forall i :: 0 <= i < |scheduledPayments|
              ==> scheduledPayments[i].scheduledPrincipalAmount == principal / (|scheduledPayments| as real)
    ensures |scheduledPayments| > 0
            ==> scheduledPayments[0].scheduledDate == addMonths(startDate, 12 / SeedPaymentsPerYear(paymentFrequency))
    ensures forall i :: 0 < i < |scheduledPayments|
              ==> scheduledPayments[i].scheduledDate
                  == addMonths(scheduledPayments[i - 1].scheduledDate, 12 / SeedPaymentsPerYear(paymentFrequency))
    // the installments repay exactly the principal
    ensures |scheduledPayments| > 0 ==> SumScheduledPrincipal(scheduledPayments) == principal
    // with a calendar that moves forward, the dates strictly increase after the start
    ensures MonthsAdvance(addMonths) ==> IncreasingAfter(scheduledPayments, startDate)
  {
    var paymentsPerYear := SeedPaymentsPerYear(paymentFrequency);
    var monthsBetweenPayments := 12 / paymentsPerYear;
    var totalPayments := InstallmentCount(totalTermMonths, paymentFrequency);
    var scheduledPrincipalAmount := if totalPayments > 0 then principal / totalPayments as real else 0.0;
    scheduledPayments := [];
    var currentDate := startDate;
    var i := 1;
    while i <= totalPayments
      invariant 1 <= i && (i <= totalPayments + 1 || i == 1)
      invariant |scheduledPayments| == i - 1
      invariant currentDate == if i == 1 then startDate else scheduledPayments[i - 2].scheduledDate
      invariant forall k :: 0 <= k < |scheduledPayments| ==> scheduledPayments[k].paymentNumber == k + 1
      invariant forall k :: 0 <= k < |scheduledPayments|
                  ==> scheduledPayments[k].scheduledPrincipalAmount == scheduledPrincipalAmount
      invariant |scheduledPayments| > 0 ==> scheduledPayments[0].scheduledDate == addMonths(startDate, monthsBetweenPayments)
      invariant forall k :: 0 < k < |scheduledPayments|
                  ==> scheduledPayments[k].scheduledDate == addMonths(scheduledPayments[k - 1].scheduledDate, monthsBetweenPayments)
      decreases totalPayments - i
    {
      currentDate := addMonths(currentDate, monthsBetweenPayments);
      scheduledPayments := scheduledPayments + [ScheduledPayment(i, currentDate, scheduledPrincipalAmount)];
      i := i + 1;
    }
    if |scheduledPayments| > 0 {
      EqualInstallmentsSum(scheduledPayments, scheduledPrincipalAmount);
    }
    ChainIncreases(scheduledPayments, startDate, monthsBetweenPayments, addMonths);
  }
}
