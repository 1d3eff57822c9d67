/** The vocabulary shared by the loan engine: calendar days, loan terms, planned
    installments, actual payments and the records derived from them. */
module LoanTypes {

  /** A calendar date at midnight, as a whole day number; the next day is `d + 1`. */
  type Day = int

  /** Calendar month addition as the host calendar performs it: `addMonths(d, n)`
      is day `d` moved `n` calendar months forward. */
  type AddMonths = (Day, int) -> Day

  /** The one property of calendar month addition the model relies on: moving a
      date forward by a positive number of months yields a strictly later date. */
  ghost predicate MonthsAdvance(addMonths: AddMonths)
  {
    forall d: Day, n: int :: n > 0 ==> addMonths(d, n) > d
  }

  datatype Option<T> = None | Some(value: T)

  function Min(a: real, b: real): real { if a <= b then a else b }

  function Max(a: real, b: real): real { if a >= b then a else b }

  /** Contractual terms of a loan. Rates are annual percentages; an absent
      prepayment fee percentage is represented by 0. */
  datatype LoanParams = LoanParams(
    principal: real,
    fixedRate: real,
    floatingRate: real,
    fixedPeriodMonths: int,
    totalTermMonths: int,
    startDate: Day,
    paymentFrequency: string,
    prepaymentFeePercentage: real)

  /** One planned installment of the flat schedule. */
  datatype ScheduledPayment = ScheduledPayment(
    paymentNumber: int,
    scheduledDate: Day,
    scheduledPrincipalAmount: real)

  datatype PaymentType = Manual | InterestCollection

  /** An actual payment as recorded. */
  datatype Payment = Payment(
    id: string,
    paymentDate: Day,
    paymentAmount: real,
    kind: PaymentType)

  /** How one payment is split by the allocation engine. */
  datatype EnrichedPaymentInfo = EnrichedPaymentInfo(
    principalPaid: real,
    interestPaid: real,
    prepaymentFee: real,
    prepaymentAmount: real)

  /** A payment together with its allocation. `payment` is the copied payment
      record, whose amount the ledger may have replaced (interest collections). */
  datatype EnrichedPayment = EnrichedPayment(
    payment: Payment,
    principalPaid: real,
    interestPaid: real,
    prepaymentFee: real)

  datatype LoanSummary = LoanSummary(
    totalInterestPaid: real,
    totalPrincipalPaid: real,
    totalAmountPaid: real,
    remainingBalance: real,
    fixedPeriodInterest: real,
    floatingPeriodInterest: real,
    numberOfPayments: int,
    actualPaymentsMade: int,
    unpaidAccruedInterest: real)

  /** Total principal allocated over a run of enriched payments. */
  function SumPrincipal(s: seq<EnrichedPayment>): real
  {
    if s == [] then 0.0 else SumPrincipal(s[..|s| - 1]) + s[|s| - 1].principalPaid
  }

  /** Total interest allocated over a run of enriched payments. */
  function SumInterest(s: seq<EnrichedPayment>): real
  {
    if s == [] then 0.0 else SumInterest(s[..|s| - 1]) + s[|s| - 1].interestPaid
  }

  lemma SumsAppend(s: seq<EnrichedPayment>, e: EnrichedPayment)
    ensures SumPrincipal(s + [e]) == SumPrincipal(s) + e.principalPaid
    ensures SumInterest(s + [e]) == SumInterest(s) + e.interestPaid
  {
    assert (s + [e])[..|s|] == s;
  }
}
