/** The daily interest accrual engine: interest accumulated one day at a time on
    a balance that steps down on given dates, and the per-day fixed/floating
    accumulation shared by the payable- and accrued-interest queries. */
module Accrual {
  import opened LoanTypes
  import opened Rates

  /** A reduction of the balance by `amount`, effective from `date` on. */
  datatype StepDown = StepDown(date: Day, amount: real)

  ghost predicate SortedByDate(s: seq<StepDown>)
  {
    forall i, j :: 0 <= i < j < |s| ==> s[i].date <= s[j].date
  }

  /** Sum of all step-down amounts. */
  function Total(s: seq<StepDown>): real
  {
    if s == [] then 0.0 else s[0].amount + Total(s[1..])
  }

  /** Sum of the step-downs dated on or before day `d`. */
  function AmountOnOrBefore(s: seq<StepDown>, d: Day): real
  {
    if s == [] then 0.0
    else (if s[0].date <= d then s[0].amount else 0.0) + AmountOnOrBefore(s[1..], d)
  }

  /** The balance in force on day `d`: the principal less every step-down dated
      on or before that day. */
  function BalanceOn(principal: real, steps: seq<StepDown>, d: Day): real
  {
    principal - AmountOnOrBefore(steps, d)
  }

  lemma {:induction false} TotalAppend(s: seq<StepDown>, x: StepDown)
    ensures Total(s + [x]) == Total(s) + x.amount
  {
    if s != [] {
      assert (s + [x])[1..] == s[1..] + [x];
      TotalAppend(s[1..], x);
    }
  }

  lemma {:induction false} AmountConcat(s: seq<StepDown>, t: seq<StepDown>, d: Day)
    ensures AmountOnOrBefore(s + t, d) == AmountOnOrBefore(s, d) + AmountOnOrBefore(t, d)
  {
    if s == [] {
      assert s + t == t;
    } else {
      assert (s + t)[1..] == s[1..] + t;
      AmountConcat(s[1..], t, d);
    }
  }

  /** When every step-down of `s` up to index `k` is dated on or before `d` and
      every later one after `d`, the amount on or before `d` is the prefix total. */
  lemma {:induction false} PrefixAmount(s: seq<StepDown>, k: nat, d: Day)
    requires k <= |s|
    requires forall j :: 0 <= j < k ==> s[j].date <= d
    requires forall j :: k <= j < |s| ==> s[j].date > d
    ensures AmountOnOrBefore(s, d) == Total(s[..k])
  {
    if s != [] {
      if k == 0 {
        PrefixAmount(s[1..], 0, d);
      } else {
        assert s[..k][1..] == s[1..][..k - 1];
        PrefixAmount(s[1..], k - 1, d);
      }
    }
  }

  /** Inserts `x` before the first step-down dated on or after it. */
  function InsertByDate(x: StepDown, s: seq<StepDown>): (r: seq<StepDown>)
    ensures |r| == |s| + 1
  {
    if s == [] || x.date <= s[0].date then [x] + s
    else
      assert s == [s[0]] + s[1..];
      [s[0]] + InsertByDate(x, s[1..])
  }

  /** Stable sort of step-downs by date (an insertion sort). */
  function SortByDate(s: seq<StepDown>): (r: seq<StepDown>)
    ensures |r| == |s|
  {
    if s == [] then []
    else
      assert s == [s[0]] + s[1..];
      InsertByDate(s[0], SortByDate(s[1..]))
  }

  lemma {:induction false} InsertSorted(x: StepDown, s: seq<StepDown>)
    requires SortedByDate(s)
    ensures SortedByDate(InsertByDate(x, s))
    ensures InsertByDate(x, s) != [] && (InsertByDate(x, s)[0] == x || (s != [] && InsertByDate(x, s)[0] == s[0]))
  {
    if s != [] && x.date > s[0].date {
      InsertSorted(x, s[1..]);
    }
  }

  lemma {:induction false} InsertAmount(x: StepDown, s: seq<StepDown>, d: Day)
    ensures AmountOnOrBefore(InsertByDate(x, s), d)
         == (if x.date <= d then x.amount else 0.0) + AmountOnOrBefore(s, d)
  {
    if s != [] && x.date > s[0].date {
      InsertAmount(x, s[1..], d);
      assert ([s[0]] + InsertByDate(x, s[1..]))[1..] == InsertByDate(x, s[1..]);
    } else {
      assert ([x] + s)[1..] == s;
    }
  }

  lemma {:induction false} InsertPermutes(x: StepDown, s: seq<StepDown>)
    ensures multiset(InsertByDate(x, s)) == multiset(s) + multiset{x}
  {
    if s != [] && x.date > s[0].date {
      InsertPermutes(x, s[1..]);
      assert s == [s[0]] + s[1..];
    }
  }

  /** Sorting rearranges the step-downs and loses or adds none. */
  lemma {:induction false} SortByDatePermutes(s: seq<StepDown>)
    ensures multiset(SortByDate(s)) == multiset(s)
  {
    if s != [] {
      SortByDatePermutes(s[1..]);
      InsertPermutes(s[0], SortByDate(s[1..]));
      assert s == [s[0]] + s[1..];
    }
  }

  /** Sorting orders the step-downs by date and changes no amount due on any day. */
  lemma {:induction false} SortByDateCorrect(s: seq<StepDown>, d: Day)
    ensures SortedByDate(SortByDate(s))
    ensures AmountOnOrBefore(SortByDate(s), d) == AmountOnOrBefore(s, d)
  {
    if s != [] {
      SortByDateCorrect(s[1..], d);
      InsertSorted(s[0], SortByDate(s[1..]));
      InsertAmount(s[0], SortByDate(s[1..]), d);
    }
  }

  /** Once the walk over the sorted step-downs has consumed exactly those dated on
      or before `d`, the running balance is the balance in force on `d`. */
  lemma PointerBalance(principal: real, steps: seq<StepDown>, k: nat, d: Day)
    requires k <= |steps|
    requires ConsumedThrough(SortByDate(steps), k, d)
    requires k == |steps| || SortByDate(steps)[k].date > d
    ensures principal - Total(SortByDate(steps)[..k]) == BalanceOn(principal, steps, d)
  {
    SortByDateCorrect(steps, d);
    SortedPrefixAmount(SortByDate(steps), k, d);
  }

  /** In a date-sorted run, a prefix ending exactly at `d` holds every step-down
      dated on or before `d`. */
  lemma SortedPrefixAmount(sorted: seq<StepDown>, k: nat, d: Day)
    requires k <= |sorted| && SortedByDate(sorted)
    requires ConsumedThrough(sorted, k, d)
    requires k == |sorted| || sorted[k].date > d
    ensures Total(sorted[..k]) == AmountOnOrBefore(sorted, d)
  {
    forall j | k <= j < |sorted|
      ensures sorted[j].date > d
    {
      assert sorted[k].date <= sorted[j].date;
    }
    PrefixAmount(sorted, k, d);
  }

  /** The first `k` step-downs of `sorted` are all dated on or before `d`. */
  ghost predicate ConsumedThrough(sorted: seq<StepDown>, k: nat, d: Day)
    requires k <= |sorted|
  {
    forall j :: 0 <= j < k ==> sorted[j].date <= d
  }

  /** Walking on past `d` keeps every consumed step-down on or before `d`. */
  lemma ConsumeExtends(sorted: seq<StepDown>, k: nat, d0: Day, d: Day)
    requires k <= |sorted| && d0 <= d && ConsumedThrough(sorted, k, d0)
    ensures ConsumedThrough(sorted, ConsumeUpTo(sorted, k, d), d)
  {
  }

  /** Moves the walk over the date-sorted step-downs past every one dated on or
      before `d`, starting at index `k`. */
  function ConsumeUpTo(sorted: seq<StepDown>, k: nat, d: Day): (r: nat)
    requires k <= |sorted|
    ensures k <= r <= |sorted|
    ensures forall j :: k <= j < r ==> sorted[j].date <= d
    ensures r == |sorted| || sorted[r].date > d
    decreases |sorted| - k
  {
    if k < |sorted| && sorted[k].date <= d then ConsumeUpTo(sorted, k + 1, d) else k
  }

  /** Applies the sorted payments from index `k` on while they are dated on or
      before `d`, lowering the balance by each one's principal part. */
  method ApplyPaymentsThrough(balance: real, sorted: seq<StepDown>, k: nat, d: Day)
    returns (next: nat, newBalance: real)
    requires k <= |sorted|
    ensures next == ConsumeUpTo(sorted, k, d)
    ensures newBalance == balance - (Total(sorted[..next]) - Total(sorted[..k]))
  {
    next := k;
    newBalance := balance;
    while next < |sorted| && sorted[next].date <= d
      invariant k <= next <= |sorted|
      invariant ConsumeUpTo(sorted, next, d) == ConsumeUpTo(sorted, k, d)
      invariant newBalance == balance - (Total(sorted[..next]) - Total(sorted[..k]))
      decreases |sorted| - next
    {
      assert sorted[..next + 1] == sorted[..next] + [sorted[next]];
      TotalAppend(sorted[..next], sorted[next]);
      newBalance := newBalance - sorted[next].amount;
      next := next + 1;
    }
  }

  /** Interest accrued over the days of `[fromDay, toDay)`, each day on that day's
      balance at the daily rate of `annualRate`. */
  function InterestOver(principal: real, annualRate: real, steps: seq<StepDown>, fromDay: Day, toDay: Day): real
    decreases toDay - fromDay
  {
    if toDay <= fromDay then 0.0
    else InterestOver(principal, annualRate, steps, fromDay, toDay - 1)
         + BalanceOn(principal, steps, toDay - 1) * DailyInterestRate(annualRate)
  }

  lemma InterestOverStep(principal: real, annualRate: real, steps: seq<StepDown>, fromDay: Day, d: Day,
                          balance: real, total: real)
    requires fromDay <= d
    requires total == InterestOver(principal, annualRate, steps, fromDay, d)
    requires balance == BalanceOn(principal, steps, d)
    ensures total + balance * DailyInterestRate(annualRate) == InterestOver(principal, annualRate, steps, fromDay, d + 1)
  {
  }

  /** Brings the walk over the sorted step-downs up to day `d`: afterwards the
      running balance is the balance in force on `d`. */
  method AdvanceTo(principal: real, steps: seq<StepDown>, sorted: seq<StepDown>, k: nat, balance: real, d: Day)
    returns (next: nat, newBalance: real)
    requires sorted == SortByDate(steps) && k <= |sorted|
    requires ConsumedThrough(sorted, k, d - 1) && balance == principal - Total(sorted[..k])
    ensures next <= |sorted| && ConsumedThrough(sorted, next, d)
    ensures newBalance == principal - Total(sorted[..next])
    ensures newBalance == BalanceOn(principal, steps, d)
  {
    ConsumeExtends(sorted, k, d - 1, d);
    next, newBalance := ApplyPaymentsThrough(balance, sorted, k, d);
    PointerBalance(principal, steps, next, d);
  }

  /** Day-by-day interest on `[startDate, endDate)`: before each day's interest,
      every step-down dated on or before that day is taken off the balance. */
  method CalculateDailyInterest(principal: real, annualRate: real, startDate: Day, endDate: Day,
                                payments: seq<StepDown>) returns (totalInterest: real)
    ensures totalInterest == InterestOver(principal, annualRate, payments, startDate, endDate)
    ensures endDate <= startDate ==> totalInterest == 0.0
  {
    var dailyRate := DailyInterestRate(annualRate);
    totalInterest := 0.0;
    var currentBalance := principal;
    var sortedPayments := SortByDate(payments);
    var payment: nat := 0;
    var currentDate := startDate;
    while currentDate < endDate
      invariant startDate <= currentDate && (currentDate <= endDate || currentDate == startDate)
      invariant 0 <= payment <= |sortedPayments|
      invariant ConsumedThrough(sortedPayments, payment, currentDate - 1)
      invariant currentBalance == principal - Total(sortedPayments[..payment])
      invariant totalInterest == InterestOver(principal, annualRate, payments, startDate, currentDate)
      decreases endDate - currentDate
    {
      payment, currentBalance := AdvanceTo(principal, payments, sortedPayments, payment, currentBalance, currentDate);
      InterestOverStep(principal, annualRate, payments, startDate, currentDate, currentBalance, totalInterest);
      totalInterest := totalInterest + currentBalance * dailyRate;
      currentDate := currentDate + 1;
    }
  }

  /** Without step-downs, interest is the principal times the daily rate times
      the number of days in the interval. */
  lemma {:induction false} FlatInterest(principal: real, annualRate: real, fromDay: Day, toDay: Day)
    requires fromDay <= toDay
    decreases toDay - fromDay
    ensures InterestOver(principal, annualRate, [], fromDay, toDay)
         == principal * DailyInterestRate(annualRate) * (toDay - fromDay) as real
  {
    if toDay > fromDay {
      FlatInterest(principal, annualRate, fromDay, toDay - 1);
    }
  }

  /** A step-down lowers the balance of every day on or after its date by its
      amount, and leaves the earlier days alone. */
  lemma StepDownLowersBalance(principal: real, steps: seq<StepDown>, i: nat, d: Day)
    requires i < |steps|
    ensures BalanceOn(principal, steps, d)
         == BalanceOn(principal, steps[..i] + steps[i + 1..], d) - (if steps[i].date <= d then steps[i].amount else 0.0)
  {
    assert steps == steps[..i] + [steps[i]] + steps[i + 1..];
    AmountConcat(steps[..i] + [steps[i]], steps[i + 1..], d);
    AmountConcat(steps[..i], [steps[i]], d);
    AmountConcat(steps[..i], steps[i + 1..], d);
    assert AmountOnOrBefore([steps[i]], d) == if steps[i].date <= d then steps[i].amount else 0.0 by {
      assert [steps[i]][1..] == [];
    }
  }

  /** With non-negative step-downs the balance never rises from one day to a later one. */
  lemma {:induction false} BalanceNonIncreasing(principal: real, steps: seq<StepDown>, d1: Day, d2: Day)
    requires d1 <= d2
    requires forall j :: 0 <= j < |steps| ==> steps[j].amount >= 0.0
    ensures BalanceOn(principal, steps, d2) <= BalanceOn(principal, steps, d1)
  {
    if steps != [] {
      BalanceNonIncreasing(principal, steps[1..], d1, d2);
    }
  }

  /** Interest over `[fromDay, toDay)` on a fixed balance, each day at the rate of the
      regime in force on that day. */
  function RegimeInterest(balance: real, p: LoanParams, switchDay: Day, fromDay: Day, toDay: Day): real
    decreases toDay - fromDay
  {
    if toDay <= fromDay then 0.0
    else RegimeInterest(balance, p, switchDay, fromDay, toDay - 1)
         + balance * DailyInterestRate(RateOn(p, switchDay, toDay - 1))
  }

  /** Days before the switch day accrue at the fixed daily rate and days from it
      on at the floating daily rate: `cut` is where the interval is split. */
  lemma {:induction false} RegimeSplit(balance: real, p: LoanParams, switchDay: Day, fromDay: Day, toDay: Day)
    requires fromDay <= toDay
    decreases toDay - fromDay
    ensures var cut := if switchDay < fromDay then fromDay else if switchDay > toDay then toDay else switchDay;
            (RegimeInterest(balance, p, switchDay, fromDay, toDay)
             == balance * DailyInterestRate(p.fixedRate) * (cut - fromDay) as real
              + balance * DailyInterestRate(p.floatingRate) * (toDay - cut) as real)
  {
    if toDay > fromDay {
      RegimeSplit(balance, p, switchDay, fromDay, toDay - 1);
    }
  }

  /** With a single rate, the regime accumulation is the step-free interest of
      the daily accrual engine. */
  lemma {:induction false} SingleRegime(balance: real, p: LoanParams, switchDay: Day, fromDay: Day, toDay: Day)
    requires p.fixedRate == p.floatingRate
    decreases toDay - fromDay
    ensures RegimeInterest(balance, p, switchDay, fromDay, toDay) == InterestOver(balance, p.fixedRate, [], fromDay, toDay)
  {
    if toDay > fromDay {
      SingleRegime(balance, p, switchDay, fromDay, toDay - 1);
    }
  }

  /** The per-day accumulation loop: interest on `[fromDay, toDay)` at the rate of the
      regime in force each day. */
  method AccrueDays(balance: real, p: LoanParams, switchDay: Day, fromDay: Day, toDay: Day) returns (interest: real)
    ensures interest == RegimeInterest(balance, p, switchDay, fromDay, toDay)
    ensures toDay <= fromDay ==> interest == 0.0
  {
    interest := 0.0;
    var currentDate := fromDay;
    while currentDate < toDay
      invariant fromDay <= currentDate && (currentDate <= toDay || currentDate == fromDay)
      invariant interest == RegimeInterest(balance, p, switchDay, fromDay, currentDate)
      decreases toDay - currentDate
    {
      var annualInterestRate := if currentDate < switchDay then p.fixedRate else p.floatingRate;
      var dailyInterestRate := (annualInterestRate / 100.0) / 365.0;
      interest := interest + balance * dailyInterestRate;
      currentDate := currentDate + 1;
    }
  }

  /** The payments' principal reductions as step-downs of the balance. */
  function ToStepDowns(payments: seq<EnrichedPayment>): (r: seq<StepDown>)
    ensures |r| == |payments|
    ensures forall i :: 0 <= i < |payments| ==> r[i] == StepDown(payments[i].payment.paymentDate, payments[i].principalPaid)
  {
    seq(|payments|, i requires 0 <= i < |payments| => StepDown(payments[i].payment.paymentDate, payments[i].principalPaid))
  }

  /** Interest over adjacent intervals adds up. */
  lemma {:induction false} InterestOverSplit(principal: real, annualRate: real, steps: seq<StepDown>, a: Day, b: Day, c: Day)
    requires a <= b <= c
    decreases c - b
    ensures InterestOver(principal, annualRate, steps, a, c)
         == InterestOver(principal, annualRate, steps, a, b) + InterestOver(principal, annualRate, steps, b, c)
  {
    if c > b {
      InterestOverSplit(principal, annualRate, steps, a, b, c - 1);
    }
  }

  /** Two balance histories that agree on every day of an interval accrue the same interest over it. */
  lemma {:induction false} InterestOverAgree(p1: real, s1: seq<StepDown>, p2: real, s2: seq<StepDown>,
                                             annualRate: real, a: Day, b: Day)
    requires forall d :: a <= d < b ==> BalanceOn(p1, s1, d) == BalanceOn(p2, s2, d)
    decreases b - a
    ensures InterestOver(p1, annualRate, s1, a, b) == InterestOver(p2, annualRate, s2, a, b)
  {
    if b > a {
      InterestOverAgree(p1, s1, p2, s2, annualRate, a, b - 1);
    }
  }

  /** The state of the period-by-period walk over the payments: interest so far,
      the balance after the payments seen, and the date of the last one. */
  datatype PeriodScan = PeriodScan(total: real, balance: real, last: Day)

  /** Walks the payments in the order given; each period up to a payment accrues
      on the balance before it, at the rate in force on the payment's date. */
  function ScanPeriods(p: LoanParams, switchDay: Day, payments: seq<EnrichedPayment>): PeriodScan
  {
    if payments == [] then PeriodScan(0.0, p.principal, p.startDate)
    else
      var prev := ScanPeriods(p, switchDay, payments[..|payments| - 1]);
      var e := payments[|payments| - 1];
      var paymentDate := e.payment.paymentDate;
      PeriodScan(prev.total + InterestOver(prev.balance, RateOn(p, switchDay, paymentDate), [], prev.last, paymentDate),
                 prev.balance - e.principalPaid,
                 paymentDate)
  }

  /** The regime test used when no payment exists: months elapsed counted in
      30.44-day months. */
  function ElapsedMonthsRate(p: LoanParams, upToDate: Day): real
  {
    if (upToDate - p.startDate) as real / 30.44 < p.fixedPeriodMonths as real then p.fixedRate else p.floatingRate
  }

  /** Interest accrued from the loan start up to `upToDate`, period by period
      between payments. */
  function TotalAccruedInterest(upToDate: Day, p: LoanParams, switchDay: Day, payments: seq<EnrichedPayment>): real
  {
    if payments == [] then
      if upToDate <= p.startDate then 0.0
      else InterestOver(p.principal, ElapsedMonthsRate(p, upToDate), [], p.startDate, upToDate)
    else
      var scan := ScanPeriods(p, switchDay, payments);
      scan.total + (if upToDate > scan.last
                    then InterestOver(scan.balance, RateOn(p, switchDay, upToDate), [], scan.last, upToDate)
                    else 0.0)
  }

  method CalculateTotalAccruedInterest(upToDate: Day, p: LoanParams, payments: seq<EnrichedPayment>,
                                       addMonths: AddMonths) returns (totalAccrued: real)
    ensures totalAccrued == TotalAccruedInterest(upToDate, p, FixedPeriodEnd(p, addMonths), payments)
    ensures payments == [] && upToDate <= p.startDate ==> totalAccrued == 0.0
    ensures (p.fixedRate == p.floatingRate && DatedInOrderFrom(p.startDate, payments)
             && DatedOnOrBefore(payments, upToDate))
            ==> totalAccrued == InterestOver(p.principal, p.fixedRate, ToStepDowns(payments), p.startDate, upToDate)
  {
    var switchDay := FixedPeriodEnd(p, addMonths);
    if p.fixedRate == p.floatingRate && DatedInOrderFrom(p.startDate, payments) && DatedOnOrBefore(payments, upToDate) {
      TotalMatchesDaily(p, switchDay, payments, upToDate);
    }
    if |payments| == 0 {
      if upToDate <= p.startDate {
        return 0.0;
      }
      var monthsFromStart := (upToDate - p.startDate) as real / 30.44;
      var currentRate := if monthsFromStart < p.fixedPeriodMonths as real then p.fixedRate else p.floatingRate;
      totalAccrued := CalculateDailyInterest(p.principal, currentRate, p.startDate, upToDate, []);
      return;
    }
    totalAccrued := 0.0;
    var currentBalance := p.principal;
    var lastDate := p.startDate;
    for i := 0 to |payments|
      invariant PeriodScan(totalAccrued, currentBalance, lastDate) == ScanPeriods(p, switchDay, payments[..i])
    {
      assert payments[..i + 1][..i] == payments[..i];
      var paymentDate := payments[i].payment.paymentDate;
      var fixedPeriodEndDate := addMonths(p.startDate, p.fixedPeriodMonths);
      var currentRate := if paymentDate < fixedPeriodEndDate then p.fixedRate else p.floatingRate;
      var periodInterest := CalculateDailyInterest(currentBalance, currentRate, lastDate, paymentDate, []);
      totalAccrued := totalAccrued + periodInterest;
      currentBalance := currentBalance - payments[i].principalPaid;
      lastDate := paymentDate;
    }
    assert payments[..|payments|] == payments;
    if upToDate > lastDate {
      var currentRate := if upToDate < switchDay then p.fixedRate else p.floatingRate;
      var remainingPeriodInterest := CalculateDailyInterest(currentBalance, currentRate, lastDate, upToDate, []);
      totalAccrued := totalAccrued + remainingPeriodInterest;
    }
  }

  ghost predicate DatedInOrderFrom(start: Day, payments: seq<EnrichedPayment>)
  {
    && (forall i :: 0 <= i < |payments| ==> start <= payments[i].payment.paymentDate)
    && (forall i, j :: 0 <= i < j < |payments| ==> payments[i].payment.paymentDate <= payments[j].payment.paymentDate)
  }

  /** Under a single rate and with payments in date order, the period-by-period
      walk charges exactly what the day-by-day engine charges when each payment's
      principal is a step-down on its date. */
  lemma {:induction false} PeriodsMatchDailyEngine(p: LoanParams, switchDay: Day, payments: seq<EnrichedPayment>)
    requires p.fixedRate == p.floatingRate
    requires DatedInOrderFrom(p.startDate, payments)
    ensures var scan := ScanPeriods(p, switchDay, payments);
            && scan.balance == p.principal - Total(ToStepDowns(payments))
            && p.startDate <= scan.last
            && (forall i :: 0 <= i < |payments| ==> payments[i].payment.paymentDate <= scan.last)
            && scan.total == InterestOver(p.principal, p.fixedRate, ToStepDowns(payments), p.startDate, scan.last)
  {
    if payments != [] {
      var init := payments[..|payments| - 1];
      var e := payments[|payments| - 1];
      PeriodsMatchDailyEngine(p, switchDay, init);
      var prev := ScanPeriods(p, switchDay, init);
      var steps := ToStepDowns(init);
      var x := StepDown(e.payment.paymentDate, e.principalPaid);
      assert ToStepDowns(payments) == steps + [x];
      TotalAppend(steps, x);
      var d := e.payment.paymentDate;
      assert prev.last <= d by {
        if init != [] {
          assert init[|init| - 1] == payments[|init| - 1];
        }
      }
      forall day | p.startDate <= day < prev.last
        ensures BalanceOn(p.principal, steps + [x], day) == BalanceOn(p.principal, steps, day)
      {
        AmountConcat(steps, [x], day);
        assert [x][1..] == [];
      }
      forall day | prev.last <= day < d
        ensures BalanceOn(p.principal, steps + [x], day) == BalanceOn(prev.balance, [], day)
      {
        AmountConcat(steps, [x], day);
        assert [x][1..] == [];
        PrefixAmount(steps, |steps|, day);
        assert steps[..|steps|] == steps;
      }
      InterestOverAgree(p.principal, steps + [x], p.principal, steps, p.fixedRate, p.startDate, prev.last);
      InterestOverAgree(p.principal, steps + [x], prev.balance, [], p.fixedRate, prev.last, d);
      InterestOverSplit(p.principal, p.fixedRate, steps + [x], p.startDate, prev.last, d);
    }
  }

  /** Every payment is dated on or before `d`. */
  ghost predicate DatedOnOrBefore(payments: seq<EnrichedPayment>, d: Day)
  {
    forall i :: 0 <= i < |payments| ==> payments[i].payment.paymentDate <= d
  }

  /** Under a single rate, with payments in date order and none dated after the
      query date, the total accrued up to that date is the day-by-day engine's
      interest over [start, upToDate) with each payment's principal as a
      step-down on its date. */
  lemma {:induction false} TotalMatchesDaily(p: LoanParams, switchDay: Day, payments: seq<EnrichedPayment>, upToDate: Day)
    requires p.fixedRate == p.floatingRate
    requires DatedInOrderFrom(p.startDate, payments)
    requires DatedOnOrBefore(payments, upToDate)
    ensures TotalAccruedInterest(upToDate, p, switchDay, payments)
         == InterestOver(p.principal, p.fixedRate, ToStepDowns(payments), p.startDate, upToDate)
  {
    if payments != [] {
      PeriodsMatchDailyEngine(p, switchDay, payments);
      var scan := ScanPeriods(p, switchDay, payments);
      var steps := ToStepDowns(payments);
      assert scan.last == payments[|payments| - 1].payment.paymentDate;
      if upToDate > scan.last {
        forall day | scan.last <= day < upToDate
          ensures BalanceOn(p.principal, steps, day) == BalanceOn(scan.balance, [], day)
        {
          PrefixAmount(steps, |steps|, day);
          assert steps[..|steps|] == steps;
        }
        InterestOverAgree(p.principal, steps, scan.balance, [], p.fixedRate, scan.last, upToDate);
        InterestOverSplit(p.principal, p.fixedRate, steps, p.startDate, scan.last, upToDate);
      }
    }
  }

  /** A payment dated after the query date still extends the period walk to that
      payment's date: the walk charges every day up to the payment, where the
      day-by-day engine at the same rate stops at the query date. */
  lemma LaterPaymentChargesPastQuery(p: LoanParams, switchDay: Day, e: EnrichedPayment, upToDate: Day)
    requires p.startDate <= upToDate < e.payment.paymentDate
    ensures var daily := p.principal * DailyInterestRate(RateOn(p, switchDay, e.payment.paymentDate));
            && TotalAccruedInterest(upToDate, p, switchDay, [e])
               == daily * (e.payment.paymentDate - p.startDate) as real
            && InterestOver(p.principal, RateOn(p, switchDay, e.payment.paymentDate), ToStepDowns([e]), p.startDate, upToDate)
               == daily * (upToDate - p.startDate) as real
  {
    var rate := RateOn(p, switchDay, e.payment.paymentDate);
    var steps := ToStepDowns([e]);
    assert [e][..0] == [];
    assert ScanPeriods(p, switchDay, [e])
        == PeriodScan(0.0 + InterestOver(p.principal, rate, [], p.startDate, e.payment.paymentDate),
                      p.principal - e.principalPaid, e.payment.paymentDate);
    FlatInterest(p.principal, rate, p.startDate, e.payment.paymentDate);
    forall day | p.startDate <= day < upToDate
      ensures BalanceOn(p.principal, steps, day) == BalanceOn(p.principal, [], day)
    {
      assert steps[1..] == [];
    }
    InterestOverAgree(p.principal, steps, p.principal, [], rate, p.startDate, upToDate);
    FlatInterest(p.principal, rate, p.startDate, upToDate);
  }
}
