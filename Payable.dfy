/** Interest that has become payable on the schedule's due dates, and interest
    accrued since the last due date that is not yet payable. */
module Payable {
  import opened LoanTypes
  import opened Rates
  import opened Accrual

  /** How many leading schedule items are dated on or before `upToDate`: the
      walk over the schedule stops at the first later item. */
  function DuePrefix(schedule: seq<ScheduledPayment>, upToDate: Day): (n: nat)
    ensures n <= |schedule|
    ensures forall j :: 0 <= j < n ==> schedule[j].scheduledDate <= upToDate
    ensures n < |schedule| ==> schedule[n].scheduledDate > upToDate
  {
    if schedule == [] || schedule[0].scheduledDate > upToDate then 0
    else 1 + DuePrefix(schedule[1..], upToDate)
  }

  /** The state of the walk over the schedule: interest that has become payable,
      the last due date seen and how many sorted payments have been applied. */
  datatype PayableScan = PayableScan(total: real, last: Day, consumed: nat)

  /** Walks the schedule items in order. On each due date the payments dated on
      or before it are applied, then the interest since the previous due date
      becomes payable, computed on the reduced balance. */
  function ScanSchedule(p: LoanParams, switchDay: Day, sorted: seq<StepDown>, items: seq<ScheduledPayment>): (s: PayableScan)
    ensures s.consumed <= |sorted|
  {
    if items == [] then PayableScan(0.0, p.startDate, 0)
    else
      var prev := ScanSchedule(p, switchDay, sorted, items[..|items| - 1]);
      var d := items[|items| - 1].scheduledDate;
      var k := ConsumeUpTo(sorted, prev.consumed, d);
      PayableScan(prev.total + RegimeInterest(p.principal - Total(sorted[..k]), p, switchDay, prev.last, d), d, k)
  }

  /** Payable interest up to a date: everything that became payable on the due
      dates reached, less all interest paid, and never below zero. */
  function PayableInterestUpToDate(upToDate: Day, p: LoanParams, switchDay: Day,
                                   payments: seq<EnrichedPayment>, schedule: seq<ScheduledPayment>): real
  {
    var scan := ScanSchedule(p, switchDay, SortByDate(ToStepDowns(payments)), schedule[..DuePrefix(schedule, upToDate)]);
    Max(0.0, scan.total - SumInterest(payments))
  }

  /** Walks the schedule up to `upToDate`: on each due date applies the sorted
      payments dated on or before it, then accrues the days since the previous
      due date on the reduced principal. */
  method AccrueOverDueDates(upToDate: Day, p: LoanParams, switchDay: Day, sortedPayments: seq<StepDown>,
                            schedule: seq<ScheduledPayment>)
    returns (totalPayableInterest: real)
    ensures totalPayableInterest == ScanSchedule(p, switchDay, sortedPayments, schedule[..DuePrefix(schedule, upToDate)]).total
  {
    totalPayableInterest := 0.0;
    var remainingPrincipal := p.principal;
    var lastDate := p.startDate;
    var paymentIndex: nat := 0;
    var i := 0;
    while i < |schedule|
      invariant i <= DuePrefix(schedule, upToDate)
      invariant ScanSchedule(p, switchDay, sortedPayments, schedule[..i])
             == PayableScan(totalPayableInterest, lastDate, paymentIndex)
      invariant remainingPrincipal == p.principal - Total(sortedPayments[..paymentIndex])
    {
      var scheduledDate := schedule[i].scheduledDate;
      if scheduledDate > upToDate {
        break;
      }
      ghost var prev := PayableScan(totalPayableInterest, lastDate, paymentIndex);
      paymentIndex, remainingPrincipal := ApplyPaymentsThrough(remainingPrincipal, sortedPayments, paymentIndex, scheduledDate);
      var periodInterest := AccrueDays(remainingPrincipal, p, switchDay, lastDate, scheduledDate);
      ScanStep(p, switchDay, sortedPayments, schedule, i, prev, paymentIndex, periodInterest);
      totalPayableInterest := totalPayableInterest + periodInterest;
      lastDate := scheduledDate;
      i := i + 1;
    }
    assert i == DuePrefix(schedule, upToDate);
  }

  method CalculatePayableInterestUpToDate(upToDate: Day, p: LoanParams, payments: seq<EnrichedPayment>,
                                          schedule: seq<ScheduledPayment>, addMonths: AddMonths)
    returns (unpaidPayableInterest: real)
    ensures unpaidPayableInterest == PayableInterestUpToDate(upToDate, p, FixedPeriodEnd(p, addMonths), payments, schedule)
    ensures unpaidPayableInterest >= 0.0
  {
    var fixedPeriodEndDate := FixedPeriodEnd(p, addMonths);
    var sortedPayments := SortByDate(ToStepDowns(payments));
    var totalPayableInterest := AccrueOverDueDates(upToDate, p, fixedPeriodEndDate, sortedPayments, schedule);
    var totalInterestPaid := SumInterest(payments);
    unpaidPayableInterest := Max(0.0, totalPayableInterest - totalInterestPaid);
  }

  /** One step of the walk: the due date `schedule[i]` applies the next run of
      payments and makes the interest since the previous due date payable. */
  lemma ScanStep(p: LoanParams, switchDay: Day, sorted: seq<StepDown>, schedule: seq<ScheduledPayment>, i: nat,
                 prev: PayableScan, k: nat, interest: real)
    requires i < |schedule|
    requires prev == ScanSchedule(p, switchDay, sorted, schedule[..i])
    requires prev.consumed <= |sorted| && k == ConsumeUpTo(sorted, prev.consumed, schedule[i].scheduledDate)
    requires interest == RegimeInterest(p.principal - Total(sorted[..k]), p, switchDay, prev.last, schedule[i].scheduledDate)
    ensures ScanSchedule(p, switchDay, sorted, schedule[..i + 1]) == PayableScan(prev.total + interest, schedule[i].scheduledDate, k)
  {
    assert schedule[..i + 1][..i] == schedule[..i];
  }

  ghost predicate ScheduleInOrder(items: seq<ScheduledPayment>)
  {
    forall i, j :: 0 <= i < j < |items| ==> items[i].scheduledDate <= items[j].scheduledDate
  }

  /** The due date before the last of `items`, or the loan start for the first. */
  function PreviousDue(p: LoanParams, items: seq<ScheduledPayment>): Day
    requires items != []
  {
    if |items| == 1 then p.startDate else items[|items| - 2].scheduledDate
  }

  /** Reference definition without sorting or walking: on each due date, the
      interest since the previous due date becomes payable, computed on the
      balance left after every payment dated on or before that due date. */
  function DueInterest(p: LoanParams, switchDay: Day, steps: seq<StepDown>, items: seq<ScheduledPayment>): real
  {
    if items == [] then 0.0
    else
      var d := items[|items| - 1].scheduledDate;
      DueInterest(p, switchDay, steps, items[..|items| - 1])
      + RegimeInterest(BalanceOn(p.principal, steps, d), p, switchDay, PreviousDue(p, items), d)
  }

  lemma ScheduleInOrderPrefix(items: seq<ScheduledPayment>)
    requires items != [] && ScheduleInOrder(items)
    ensures ScheduleInOrder(items[..|items| - 1])
    ensures |items| > 1 ==> items[|items| - 2].scheduledDate <= items[|items| - 1].scheduledDate
  {
    var init := items[..|items| - 1];
    forall i, j | 0 <= i < j < |init|
      ensures init[i].scheduledDate <= init[j].scheduledDate
    {
      assert init[i] == items[i] && init[j] == items[j];
    }
  }

  /** For a schedule in date order, the walk stands on the last due date and has
      applied only payments dated on or before it. */
  lemma {:induction false} ScanPosition(p: LoanParams, switchDay: Day, sorted: seq<StepDown>, items: seq<ScheduledPayment>)
    requires ScheduleInOrder(items)
    ensures var s := ScanSchedule(p, switchDay, sorted, items);
            && (items == [] ==> s.consumed == 0 && s.last == p.startDate)
            && (items != [] ==> s.last == items[|items| - 1].scheduledDate)
            && (forall j :: 0 <= j < s.consumed ==> sorted[j].date <= s.last)
  {
    if items != [] {
      var init := items[..|items| - 1];
      ScheduleInOrderPrefix(items);
      ScanPosition(p, switchDay, sorted, init);
      if init != [] {
        assert init[|init| - 1] == items[|items| - 2];
      }
    }
  }

  /** For a schedule in date order, the walk over sorted payments computes the
      reference payable interest. */
  lemma {:induction false} ScanMatchesDueInterest(p: LoanParams, switchDay: Day, steps: seq<StepDown>,
                                                  items: seq<ScheduledPayment>)
    requires ScheduleInOrder(items)
    ensures ScanSchedule(p, switchDay, SortByDate(steps), items).total == DueInterest(p, switchDay, steps, items)
  {
    if items != [] {
      var n := |items| - 1;
      var init := items[..n];
      var sorted := SortByDate(steps);
      ScheduleInOrderPrefix(items);
      ScanMatchesDueInterest(p, switchDay, steps, init);
      var prev := ScanSchedule(p, switchDay, sorted, init);
      var d := items[n].scheduledDate;
      var k := ConsumeUpTo(sorted, prev.consumed, d);
      AppliedThroughDue(p, switchDay, steps, items);
      PointerBalance(p.principal, steps, k, d);
      var period := RegimeInterest(p.principal - Total(sorted[..k]), p, switchDay, prev.last, d);
      ScanStep(p, switchDay, sorted, items, n, prev, k, period);
      assert items[..n + 1] == items;
      assert DueInterest(p, switchDay, steps, items)
          == DueInterest(p, switchDay, steps, init) + RegimeInterest(BalanceOn(p.principal, steps, d), p, switchDay, prev.last, d);
    }
  }

  /** The last step of the walk starts where the reference's last period starts
      and has applied exactly the payments dated on or before the due date. */
  lemma AppliedThroughDue(p: LoanParams, switchDay: Day, steps: seq<StepDown>, items: seq<ScheduledPayment>)
    requires items != [] && ScheduleInOrder(items)
    ensures var prev := ScanSchedule(p, switchDay, SortByDate(steps), items[..|items| - 1]);
            var d := items[|items| - 1].scheduledDate;
            var k := ConsumeUpTo(SortByDate(steps), prev.consumed, d);
            && PreviousDue(p, items) == prev.last
            && ConsumedThrough(SortByDate(steps), k, d)
  {
    var init := items[..|items| - 1];
    var sorted := SortByDate(steps);
    ScheduleInOrderPrefix(items);
    ScanPosition(p, switchDay, sorted, init);
    if init != [] {
      assert init[|init| - 1] == items[|items| - 2];
    }
  }

  /** The day unpaid interest starts accruing from: the latest due date on or
      before `upToDate`, or the loan start when there is none. */
  function LastScheduledOnOrBefore(schedule: seq<ScheduledPayment>, upToDate: Day): (r: Option<Day>)
    ensures r.None? <==> forall j :: 0 <= j < |schedule| ==> schedule[j].scheduledDate > upToDate
    ensures r.Some? ==> r.value <= upToDate
    ensures r.Some? ==> exists j :: 0 <= j < |schedule| && schedule[j].scheduledDate == r.value
    ensures r.Some? ==> forall j :: 0 <= j < |schedule| && schedule[j].scheduledDate <= upToDate
                                    ==> schedule[j].scheduledDate <= r.value
  {
    if schedule == [] then None
    else
      var rest := LastScheduledOnOrBefore(schedule[..|schedule| - 1], upToDate);
      var d := schedule[|schedule| - 1].scheduledDate;
      assert forall j :: 0 <= j < |schedule| - 1 ==> schedule[..|schedule| - 1][j] == schedule[j];
      if d > upToDate then rest
      else if rest.Some? && rest.value >= d then rest
      else Some(d)
  }

  function AccrualStart(p: LoanParams, schedule: seq<ScheduledPayment>, upToDate: Day): Day
  {
    match LastScheduledOnOrBefore(schedule, upToDate)
    case None => p.startDate
    case Some(d) => d
  }

  /** Interest accrued after the last due date and not yet payable: each day from
      that date up to `upToDate` at the regime rate, on the balance left after the
      payments dated on or before that date. */
  function UnpaidAccruedInterest(upToDate: Day, p: LoanParams, switchDay: Day,
                                 payments: seq<EnrichedPayment>, schedule: seq<ScheduledPayment>): real
  {
    var last := AccrualStart(p, schedule, upToDate);
    if upToDate <= last then 0.0
    else RegimeInterest(BalanceOn(p.principal, ToStepDowns(payments), last), p, switchDay, last, upToDate)
  }

  method CalculatePayableInterestUpTo(upToDate: Day, p: LoanParams, payments: seq<EnrichedPayment>,
                                      schedule: seq<ScheduledPayment>, addMonths: AddMonths)
    returns (accruedInterest: real)
    ensures accruedInterest == UnpaidAccruedInterest(upToDate, p, FixedPeriodEnd(p, addMonths), payments, schedule)
    // on a due date everything accrued has just become payable
    ensures (exists j :: 0 <= j < |schedule| && schedule[j].scheduledDate == upToDate) ==> accruedInterest == 0.0
    ensures upToDate <= p.startDate && (forall j :: 0 <= j < |schedule| ==> schedule[j].scheduledDate > upToDate)
            ==> accruedInterest == 0.0
  {
    var lastScheduledDate := match LastScheduledOnOrBefore(schedule, upToDate)
                             case None => p.startDate
                             case Some(d) => d;
    if exists j :: 0 <= j < |schedule| && schedule[j].scheduledDate == upToDate {
      var j :| 0 <= j < |schedule| && schedule[j].scheduledDate == upToDate;
      assert lastScheduledDate == upToDate;
    }
    if upToDate <= lastScheduledDate {
      return 0.0;
    }
    var totalPrincipalPaidByLastScheduled := AmountOnOrBefore(ToStepDowns(payments), lastScheduledDate);
    var remainingPrincipal := p.principal - totalPrincipalPaidByLastScheduled;
    accruedInterest := AccrueDays(remainingPrincipal, p, FixedPeriodEnd(p, addMonths), lastScheduledDate, upToDate);
  }

  /** A payment dated after the last due date does not change the unpaid accrued
      interest: the balance it accrues on is fixed at that due date. */
  lemma UnpaidIgnoresLaterPayments(upToDate: Day, p: LoanParams, switchDay: Day, payments: seq<EnrichedPayment>,
                                   schedule: seq<ScheduledPayment>, e: EnrichedPayment)
    requires e.payment.paymentDate > AccrualStart(p, schedule, upToDate)
    ensures UnpaidAccruedInterest(upToDate, p, switchDay, payments + [e], schedule)
         == UnpaidAccruedInterest(upToDate, p, switchDay, payments, schedule)
  {
    var x := StepDown(e.payment.paymentDate, e.principalPaid);
    assert ToStepDowns(payments + [e]) == ToStepDowns(payments) + [x];
    AmountConcat(ToStepDowns(payments), [x], AccrualStart(p, schedule, upToDate));
    assert [x][1..] == [];
  }
}
