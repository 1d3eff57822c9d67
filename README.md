# Loan tracker core, modelled in Dafny

This project models the calculation engine of a personal loan tracker. The loan
has a fixed-rate period followed by a floating rate, a flat schedule of equal
principal installments, and actual payments of two kinds: manual payments and
interest collections. The engine does five things:

- It accrues interest day by day on a balance that steps down as principal is repaid.
- It makes interest and scheduled principal *payable* on the due dates.
- It splits every payment between payable interest, payable principal and a
  prepayment (principal plus a prepayment fee).
- It reports the interest that has become payable or is still accruing.
- It builds the loan summary.

The modelled files are `lib/loanCalculations.ts` and the schedule generator of
`prisma/seed.ts`.

Modelling conventions:

- Dates are whole day numbers (`LoanTypes.Day`); day `d + 1` is the midnight after `d`.
- Calendar month addition is a caller-supplied function (`LoanTypes.AddMonths`). Where
  a property needs months to move forward, it is stated under
  `MonthsAdvance(addMonths) ==> …`.
- Money and rates are exact `real`s.
- The current instant (`new Date()`) is a `today` parameter. The summary reads the
  clock at an instant after today's midnight.
- Loops in the source are methods with loop invariants. Each is proved equal to a
  recursive specification function. The properties are lemmas about those functions.

Modules, in dependency order:

- `LoanTypes`: days, records and sums over enriched payments.
- `Rates`: frequencies, periodic and daily rates, the fixed/floating regime, and
  the EMI with its annuity proof.
- `Allocation`: `getPaymentBreakdown`, the older `calculatePaymentBreakdown`,
  the fee helpers and `calculateRemainingBalance`.
- `Accrual`: the daily accrual engine `calculateDailyInterest`, the stable sort of
  step-downs, the per-day regime accumulation loop, and
  `calculateTotalAccruedInterest`.
- `Payable`: `calculatePayableInterestUpToDate` and `calculatePayableInterestUpTo`.
- `Ledger`: the day-by-day simulator `enrichPaymentsWithBreakdownUpTo`, as the
  state machine `Simulate` and as the method that implements it.
- `Summary`: `calculateLoanSummary`.
- `Seed`: `generateScheduledPayments`.

The model follows the code as written. In these places the code does something
other than what one would expect of it, and the model states what the code does:

- A flat schedule has one installment per payment period over the whole term. For
  a 240-month monthly loan `generateScheduledPayments` computes
  `ceil(240 / 12 * 12) = 240` installments, and `Seed.GenerateScheduledPayments`
  states that count.
- The two frequency tables disagree on an unknown payment frequency.
  `getPaymentsPerYear` counts it as monthly (`Rates.PaymentsPerYear`). The schedule
  generator counts it as annual (`Seed.SeedPaymentsPerYear`).
- The summary's unpaid accrued interest is not the ledger's running accrual. The
  code recomputes it with `calculatePayableInterestUpTo`:
  - on the balance fixed at the last due date;
  - over the days from that date up to the current instant, so today is included.

  `Summary.UnpaidAccruedDuring` models the code.
- The outstanding principal never rises for a fee percentage above -100
  (`Ledger.OutstandingNeverRises`), but it can go below zero: `getPaymentBreakdown`
  puts all of an excess into prepayment and never caps it at the outstanding
  principal. A loan of 100 with one manual payment of 1000, no fee, made before
  any interest falls due, is left with an outstanding principal of -900.
- A zero or negative payment gets an all-zero breakdown from the older
  `calculatePaymentBreakdown` (lib/loanCalculations.ts:324-326), but
  `getPaymentBreakdown` has no such guard: a payment of -5 with
  interest payable pays -5 as interest, since min(-5, payable interest) is -5.
  `Allocation.GetPaymentBreakdown` models the code.
- `calculateTotalAccruedInterest` is documented as the interest accrued from the
  loan start up to the query date (lib/loanCalculations.ts:51-56). It walks every
  payment it is given, whatever its date, and adds a tail only when the query date
  is later than the last payment. A payment dated after the query date therefore
  extends the accrual to that payment's date. With a principal of 100, both rates
  365% and one payment on day 10, a query on day 5 gives 10, where the day-by-day
  engine gives 5. `Accrual.LaterPaymentChargesPastQuery` proves this for any single
  payment dated after the query date. When no payment is
  later than the query date, the result is the day-by-day engine's interest up to
  that date (`Accrual.TotalMatchesDaily`).

## Model

| member | source | states |
|---|---|---|
| Rates.PaymentsPerYear | lib/loanCalculations.ts:5-18 | the count is one of 1, 2, 4, 12; any count other than 12 comes only from the name of that frequency, so an unknown name gives 12 |
| Rates.FrequencyRoundTrip | lib/loanCalculations.ts:5-18 | reading back the name of each frequency gives its count; a string that names no frequency reads as 12 |
| Rates.MonthsBetweenPayments | lib/loanCalculations.ts:39-41 | the interval is 1, 3, 6 or 12 months and times the payments per year is exactly 12 |
| Rates.PeriodicRate | lib/loanCalculations.ts:23-25 | the periodic rate times the payments per year times 100 is the annual percentage |
| Rates.DailyInterestRate | lib/loanCalculations.ts:46-48 | the daily rate times 365 times 100 is the annual percentage (no leap years); a non-negative annual rate gives a non-negative daily rate |
| Rates.BalanceClosedForm | lib/loanCalculations.ts:169-183 | the reducing-balance recurrence (grow by the rate, pay one installment) has the annuity closed form after any number of periods |
| Rates.ZeroRateBalance | lib/loanCalculations.ts:174-176 | at a zero rate every period lowers the balance by exactly one installment |
| Rates.AnnuityCloses | lib/loanCalculations.ts:178-182 | the annuity installment cancels the grown principal exactly, and is positive for a positive principal |
| Rates.CalculateEMI | lib/loanCalculations.ts:169-183 | paying the EMI every period for the whole term leaves a balance of exactly zero, at any non-negative rate; a positive principal gives a positive EMI |
| Allocation.CalculatePrepaymentFee | lib/loanCalculations.ts:280-285 | fee × 100 = prepaid amount × fee percentage; non-negative for non-negative inputs; never above the prepaid amount for a percentage up to 100 |
| Allocation.CalculatePaymentPrepaymentFee | lib/loanCalculations.ts:367-378 | no fee unless the payment exceeds the scheduled amount; otherwise the fee on the excess only |
| Allocation.GetPaymentBreakdown | lib/loanCalculations.ts:626-658 | the split uses up the payment exactly; interest is paid first, up to what is payable; payable principal is paid next, exactly max(min(what is left, payable principal), 0), so never overpaid and nothing when payable principal is negative; a prepayment occurs only after all payable interest and principal are covered; the fee is the fee percentage of the prepaid principal |
| Allocation.PrepaymentSplit | lib/loanCalculations.ts:644-648 | the excess splits into principal and fee that add up to it, with the fee equal to the percentage of the principal part |
| Allocation.CalculatePaymentBreakdown | lib/loanCalculations.ts:314-362 | non-positive payments allocate nothing; otherwise interest = min(payment, accrued interest), the parts add up to the payment, principal is the remainder (with a fee percentage, the remainder divided by 1 + fee%/100, the part that pays its own fee) capped at the remaining balance, and the fee is the percentage of the principal unless the cap bites |
| Allocation.CalculateRemainingBalance | lib/loanCalculations.ts:290-307 | the balance is the principal less the positive payment amounts, floored at zero |
| Accrual.SortByDateCorrect | lib/loanCalculations.ts:133-137 | sorting puts step-downs in date order and keeps the amount dated on or before every day |
| Accrual.SortByDatePermutes | lib/loanCalculations.ts:133-137 | sorting is a permutation of the step-downs |
| Accrual.PointerBalance | lib/loanCalculations.ts:143-153 | once the walk has consumed exactly the sorted step-downs dated on or before a day, the running balance is that day's balance |
| Accrual.ApplyPaymentsThrough | lib/loanCalculations.ts:147-153 | the walk stops at the first step-down dated after the day, and the balance drops by exactly the amounts consumed |
| Accrual.CalculateDailyInterest | lib/loanCalculations.ts:117-163 | the interest over [start, end) is the sum, over the days, of that day's balance (principal less every step-down dated on or before it) times the daily rate; an empty interval gives 0 |
| Accrual.FlatInterest | lib/loanCalculations.ts:117-163 | without step-downs the interest is principal × daily rate × number of days |
| Accrual.StepDownLowersBalance | lib/loanCalculations.ts:147-153 | a step-down lowers the balance of every day from its date on by its amount and leaves earlier days unchanged |
| Accrual.BalanceNonIncreasing | lib/loanCalculations.ts:147-153 | with non-negative step-downs the balance never rises from one day to a later one |
| Accrual.InterestOverSplit | lib/loanCalculations.ts:143-160 | interest over adjacent intervals adds up |
| Accrual.RegimeSplit | lib/loanCalculations.ts:438-448 | on a fixed balance, days before the switch day accrue at the fixed daily rate and days from it on at the floating daily rate |
| Accrual.SingleRegime | lib/loanCalculations.ts:438-448 | with equal fixed and floating rates the regime loop charges what the daily engine charges |
| Accrual.AccrueDays | lib/loanCalculations.ts:526-541 | the per-day loop returns the regime interest on the fixed balance over [from, to), and 0 for an empty interval |
| Accrual.CalculateTotalAccruedInterest | lib/loanCalculations.ts:57-107 | the result is the period-by-period walk over the payments in the given order plus the tail after the last one; with no payments it is 0 up to the start and otherwise uses the 30.44-day-month regime test; under a single rate, with payments in date order and none after the query date, it equals the day-by-day engine's interest over [start, query date) |
| Accrual.PeriodsMatchDailyEngine | lib/loanCalculations.ts:77-95 | under a single rate and with payments in date order, the period walk charges exactly the daily engine's interest with each payment's principal as a step-down on its date, and its balance is the principal less all principal paid |
| Accrual.TotalMatchesDaily | lib/loanCalculations.ts:51-107 | under a single rate, with payments in date order and none dated after the query date, the total accrued is the day-by-day engine's interest over [start, query date) with each payment's principal as a step-down |
| Accrual.LaterPaymentChargesPastQuery | lib/loanCalculations.ts:83-104 | with one payment dated after the query date, the walk charges the flat daily interest for every day up to the payment's date, while the day-by-day engine at the same rate charges only the days up to the query date |
| Payable.DuePrefix | lib/loanCalculations.ts:415-421 | the walk covers the leading schedule items dated on or before the date and stops at the first later one |
| Payable.AccrueOverDueDates | lib/loanCalculations.ts:402-453 | the loop computes the schedule walk over the due dates reached |
| Payable.CalculatePayableInterestUpToDate | lib/loanCalculations.ts:393-462 | the result is the interest made payable on the due dates reached less all interest paid, floored at zero |
| Payable.ScanPosition | lib/loanCalculations.ts:415-453 | for a schedule in date order, the walk stands on the last due date and has consumed only payments dated on or before it |
| Payable.ScanMatchesDueInterest | lib/loanCalculations.ts:415-453 | for a schedule in date order, the sorted walk equals the reference: on each due date the days since the previous one accrue on the balance left after every payment dated on or before that due date |
| Payable.LastScheduledOnOrBefore | lib/loanCalculations.ts:487-494 | none exactly when no item is dated on or before the date; otherwise the latest such scheduled date |
| Payable.CalculatePayableInterestUpTo | lib/loanCalculations.ts:478-546 | the result is the regime interest from the last due date on or before the date, on the balance as of that due date; 0 when the date is itself a due date |
| Payable.UnpaidIgnoresLaterPayments | lib/loanCalculations.ts:505-513 | a payment dated after the last due date does not change the unpaid accrued interest |
| Ledger.FindScheduled | lib/loanCalculations.ts:567-570 | none exactly when no item is due on the day; otherwise the first item due on that day |
| Ledger.OnDay | lib/loanCalculations.ts:563-566 | exactly the payments dated that day |
| Ledger.OnDayConcat | lib/loanCalculations.ts:563-566 | the day's payments of a concatenation are those of each part, in order, so the filter keeps the recorded order |
| Ledger.OnDaySingle | lib/loanCalculations.ts:563-566 | a single payment is kept exactly when it is dated that day; with `OnDayConcat` this fixes the result completely |
| Ledger.Accrue | lib/loanCalculations.ts:571-585 | the day's interest is added to payable-plus-accrued; on a due date all of it becomes payable and the accrual restarts at 0, and the scheduled principal becomes payable; otherwise payable interest is unchanged |
| Ledger.ApplyPayment | lib/loanCalculations.ts:590-619 | one fully allocated record of the payment is appended; what it pays leaves the payable interest and principal exactly; a manual payment pays min(amount, payable interest) as interest |
| Ledger.ManualSplit | lib/loanCalculations.ts:602-607 | a manual payment is recorded with the principal, interest and prepayment fee of `getPaymentBreakdown` applied to what is payable, so the prepayment fee is charged |
| Ledger.ApplyPaymentRepays | lib/loanCalculations.ts:594-617 | with a fee percentage above -100 a payment repays a non-negative amount of principal, so total principal repaid never falls |
| Ledger.CollectionSweeps | lib/loanCalculations.ts:594-601 | an interest collection takes exactly the payable interest, all as interest, records that as its amount, and leaves nothing payable |
| Ledger.ApplyPaymentsAllocates | lib/loanCalculations.ts:590-619 | a day's payments add one fully allocated record each, in the given order |
| Ledger.ApplyPaymentsConserves | lib/loanCalculations.ts:614-618 | what a day's payments allocate leaves the payable amounts exactly |
| Ledger.DuePaymentSeesFreshInterest | lib/loanCalculations.ts:571-608 | on a due date, accrual happens before payments: the first manual payment of the day is split against the interest that has just become payable, including that day's interest |
| Ledger.AccrueDay | lib/loanCalculations.ts:571-585 | the method's new payable and accrued amounts are those of the accrual step |
| Ledger.AllocateDayPayments | lib/loanCalculations.ts:590-619 | the method's new state is that of allocating the day's payments in order |
| Ledger.EnrichPaymentsWithBreakdownUpTo | lib/loanCalculations.ts:549-623 | the records returned are those of the day-by-day ledger run from the day after the start up to and including the date |
| Ledger.PaymentsThroughExactly | lib/loanCalculations.ts:558-566 | the ledger sees a payment exactly when it is dated after the loan start and on or before the date |
| Ledger.SimulateAllocatesAll | lib/loanCalculations.ts:549-623 | the records are the payments the ledger has seen, in day order and in the given order within a day, each fully allocated |
| Ledger.OutstandingNeverRises | lib/loanCalculations.ts:549-623 | with a fee percentage above -100, every record repays a non-negative amount of principal, and the principal less everything repaid never rises from one day to the next |
| Ledger.SimulateConservesInterest | lib/loanCalculations.ts:571-618 | all interest accrued so far is either still accruing, payable, or paid |
| Ledger.SimulateConservesPrincipal | lib/loanCalculations.ts:579-617 | all principal due so far is either payable or paid, so payable principal goes negative by exactly the amount prepaid |
| Ledger.PrincipalDueIsScheduled | lib/loanCalculations.ts:567-585 | with distinct due dates, the principal made payable is the scheduled principal of the items dated after the start and on or before the date |
| Summary.InterestSplitsAtSwitch | lib/loanCalculations.ts:214-225 | the fixed-period and floating-period interest add up to all interest paid |
| Summary.TotalsPaid | lib/loanCalculations.ts:214-225 | the loop sums interest and principal paid and splits interest by payment date against the switch day |
| Summary.DuringIsNextMidnight | lib/loanCalculations.ts:231 | the unpaid accrual read during a day equals the next midnight's figure when nothing falls due on that next day |
| Summary.UnpaidAccruedNow | lib/loanCalculations.ts:478-546 | the accrual read at an instant during today runs from the last due date through today inclusive |
| Summary.CalculateLoanSummary | lib/loanCalculations.ts:188-244 | the totals are the ledger's totals up to today, and interest paid plus payable plus accruing equals all interest accrued; total paid = interest + principal; remaining = max(0, principal − principal paid); the fixed and floating buckets partition the interest paid; numberOfPayments = schedule length; actualPaymentsMade = all payments given |
| Seed.SeedPaymentsPerYear | prisma/seed.ts:13-15 | monthly, quarterly and semi-annual map to 12, 4 and 2, and only they do; anything else is 1 |
| Seed.Ceil | prisma/seed.ts:17 | the least integer not below its argument |
| Seed.InstallmentsCoverTerm | prisma/seed.ts:16-17 | for a positive term the installments reach the end of the term and one fewer would fall short |
| Seed.EqualInstallmentsSum | prisma/seed.ts:18-29 | equal installments sum to count × amount |
| Seed.ChainIncreases | prisma/seed.ts:23-29 | dates one period apart, chained from the start, strictly increase after the start when month addition moves forward |
| Seed.GenerateScheduledPayments | prisma/seed.ts:7-33 | the rows are numbered 1..n for the rounded-up count; each date is one period after the previous one; all rows carry the same principal, which sums to exactly the loan principal; when month addition moves forward, the dates strictly increase after the start |

## Left out

- Console logging, formatting functions (`formatCurrency`, `formatDate`,
  `formatPercentage`) and the seed's database writes: output only, no effect on
  the numbers.
- IEEE-754 rounding: money is exact. The source rounds in floating point, so the
  exact identities here (zero EMI balance, installments summing to the principal)
  hold only up to rounding in the running program.
- Calendar details of `addMonths`: month-end rollover of `setMonth`, time zones and
  daylight saving. Month addition is a parameter. Day arithmetic treats every day
  as exactly one step, and dates as midnights.
- Time of day of stored dates. Payment and schedule dates are whole days. The
  summary's "now" is an instant during `today`.
- Division by zero. It is excluded by preconditions:
  - a prepayment fee percentage of -100 (`GetPaymentBreakdown` and everything built on it);
  - zero payments per year in `PeriodicRate`;
  - a non-positive payment count or a negative rate in `CalculateEMI`.

  With zero installments the seed produces no rows, so its division is never observed.
- `Rates.CalculateEMI`: requires a non-negative periodic rate. The source does not
  guard against negative rates; the model says nothing about them.
- Payment status classification and the EMI schedule generator: neither is defined
  in `lib/loanCalculations.ts`. They are not part of this model.
- Notes and timestamps of payment records, and the UI and API layers: they do not
  enter any calculation.
- Differences between the engines are modelled as written, not reconciled:
  - The ledger charges each day's interest at the rate in force on the day it
    closes, on the principal before that day's payments.
  - `calculateDailyInterest` charges every day of its interval at the one rate it
    is given, on the principal less the step-downs dated on or before that day
    (`Accrual.CalculateDailyInterest`).
  - `calculateTotalAccruedInterest` charges each whole period between payments at
    the rate in force on the period's closing date (the payment date, or the query
    date for the tail). With no payments it picks one rate for the whole span by
    the 30.44-day month test (`Accrual.CalculateTotalAccruedInterest`).
  - `calculatePayableInterestUpToDate` charges each day from the previous due date
    at the rate in force on that day. The balance is the principal after every
    payment dated on or before the period's closing due date, including payments
    later than the day being charged (`Payable.DueInterest`).
  - `calculatePayableInterestUpTo` charges each day from the last due date at the
    rate in force on that day. The balance is fixed at the principal after the
    payments dated on or before that due date (`Payable.CalculatePayableInterestUpTo`).
- CalculateTotalAccruedInterest (`Accrual.CalculateTotalAccruedInterest`): the link to
  the day-by-day engine is proved only under a single rate, with payments in date
  order and none dated after the query date. A payment dated after the query date
  makes the source charge interest past that date
  (`Accrual.LaterPaymentChargesPastQuery`). Under two rates each period is charged
  at the rate of its closing date, which the daily engine does not do.
- Payments dated on or before the loan start, or after the query date, never enter
  the ledger (`Ledger.PaymentsThroughExactly`). The summary still counts them in
  `actualPaymentsMade`.
