/** Payment frequencies, rate conversions, the fixed/floating regime and the
    equated-installment formula. */
module Rates {
  import opened LoanTypes

  /** The frequency name that stands for `n` payments per year. */
  function FrequencyName(n: int): string
    requires n in {1, 2, 4, 12}
  {
    if n == 12 then "monthly" else if n == 4 then "quarterly" else if n == 2 then "semi-annual" else "annual"
  }

  /** Payments per year for a frequency name; an unrecognised name falls back to
      monthly (12). */
  function PaymentsPerYear(frequency: string): (n: int)
    ensures n in {1, 2, 4, 12}
    ensures n != 12 ==> frequency == FrequencyName(n)
  {
    match frequency
    case "monthly" => 12
    case "quarterly" => 4
    case "semi-annual" => 2
    case "annual" => 1
    case _ => 12
  }

  /** Every frequency name is read back as the count it names, and every other
      string as monthly. */
  lemma FrequencyRoundTrip(n: int, frequency: string)
    requires n in {1, 2, 4, 12}
    ensures PaymentsPerYear(FrequencyName(n)) == n
    ensures (forall m | m in {1, 2, 4, 12} :: frequency != FrequencyName(m)) ==> PaymentsPerYear(frequency) == 12
  {
  }

  /** Whole months between two consecutive payments. */
  function MonthsBetweenPayments(frequency: string): (m: int)
    ensures m in {1, 3, 6, 12}
    ensures m * PaymentsPerYear(frequency) == 12
  {
    12 / PaymentsPerYear(frequency)
  }

  /** The interest rate of one payment period, as a fraction. */
  function PeriodicRate(annualRate: real, paymentsPerYear: int): (r: real)
    requires paymentsPerYear != 0
    ensures r * (paymentsPerYear as real) * 100.0 == annualRate
  {
    annualRate / 100.0 / paymentsPerYear as real
  }

  /** The interest rate of one day, as a fraction; a year counts 365 days. */
  function DailyInterestRate(annualRate: real): (r: real)
    ensures r * 365.0 * 100.0 == annualRate
    ensures annualRate >= 0.0 ==> r >= 0.0
  {
    annualRate / 100.0 / 365.0
  }

  /** The day on which the fixed-rate period ends: the floating rate applies from
      this day on. */
  function FixedPeriodEnd(p: LoanParams, addMonths: AddMonths): Day
  {
    addMonths(p.startDate, p.fixedPeriodMonths)
  }

  /** The annual rate in force on day `d`: fixed strictly before the switch day,
      floating on and after it. */
  function RateOn(p: LoanParams, switchDay: Day, d: Day): real
  {
    if d < switchDay then p.fixedRate else p.floatingRate
  }

  function Pow(x: real, n: nat): real
  {
    if n == 0 then 1.0 else x * Pow(x, n - 1)
  }

  /** A growth factor above one compounds to more than one. */
  lemma {:induction false} PowAboveOne(x: real, n: nat)
    requires x > 1.0 && n > 0
    ensures Pow(x, n) > 1.0
  {
    if n > 1 {
      PowAboveOne(x, n - 1);
      assert x * Pow(x, n - 1) > 1.0 * Pow(x, n - 1);
    }
  }

  /** The balance left after `k` periods of a reducing-balance loan: each period
      the balance grows by the periodic rate and one installment is paid. */
  function BalanceAfter(principal: real, rate: real, installment: real, k: nat): real
  {
    if k == 0 then principal
    else BalanceAfter(principal, rate, installment, k - 1) * (1.0 + rate) - installment
  }

  /** The closed form of the balance after the periods that grow it by the
      factor `q`, multiplied through by the rate. */
  function ClosedForm(principal: real, rate: real, installment: real, q: real): real
  {
    principal * q * rate - installment * (q - 1.0)
  }

  /** One period of the closed form, as plain algebra over named quantities. */
  lemma ClosedFormStep(b: real, q: real, rate: real, installment: real, principal: real, b2: real, q2: real)
    requires b * rate == ClosedForm(principal, rate, installment, q)
    requires b2 == b * (1.0 + rate) - installment && q2 == (1.0 + rate) * q
    ensures b2 * rate == ClosedForm(principal, rate, installment, q2)
  {
    calc {
      b2 * rate;
      (b * (1.0 + rate) - installment) * rate;
      (1.0 + rate) * (b * rate) - installment * rate;
      (1.0 + rate) * (principal * q * rate - installment * (q - 1.0)) - installment * rate;
      principal * ((1.0 + rate) * q) * rate - installment * ((1.0 + rate) * q - 1.0);
    }
  }

  /** The balance after `k` periods in closed form (multiplied through by the
      rate, so that it also holds at rate zero). */
  lemma {:induction false} BalanceClosedForm(principal: real, rate: real, installment: real, k: nat)
    ensures BalanceAfter(principal, rate, installment, k) * rate == ClosedForm(principal, rate, installment, Pow(1.0 + rate, k))
  {
    if k == 0 {
      ClosedFormBase(principal, rate, installment);
    } else {
      BalanceClosedForm(principal, rate, installment, k - 1);
      ClosedFormNext(principal, rate, installment, k);
    }
  }

  lemma ClosedFormBase(principal: real, rate: real, installment: real)
    ensures BalanceAfter(principal, rate, installment, 0) * rate == ClosedForm(principal, rate, installment, Pow(1.0 + rate, 0))
  {
    assert ClosedForm(principal, rate, installment, 1.0) == principal * rate;
  }

  lemma ClosedFormNext(principal: real, rate: real, installment: real, k: nat)
    requires k > 0
    requires BalanceAfter(principal, rate, installment, k - 1) * rate
          == ClosedForm(principal, rate, installment, Pow(1.0 + rate, k - 1))
    ensures BalanceAfter(principal, rate, installment, k) * rate == ClosedForm(principal, rate, installment, Pow(1.0 + rate, k))
  {
    var b := BalanceAfter(principal, rate, installment, k - 1);
    var q := Pow(1.0 + rate, k - 1);
    var b2 := BalanceAfter(principal, rate, installment, k);
    var q2 := Pow(1.0 + rate, k);
    assert b2 == b * (1.0 + rate) - installment;
    assert q2 == (1.0 + rate) * q;
    ClosedFormStep(b, q, rate, installment, principal, b2, q2);
  }

  lemma {:induction false} ZeroRateBalance(principal: real, installment: real, k: nat)
    ensures BalanceAfter(principal, 0.0, installment, k) == principal - (k as real) * installment
  {
    if k > 0 {
      ZeroRateBalance(principal, installment, k - 1);
    }
  }

  /** The annuity installment `principal * rate * q / (q - 1)` cancels the grown
      principal exactly. */
  lemma AnnuityCloses(b: real, q: real, rate: real, installment: real, principal: real)
    requires q > 1.0 && rate > 0.0
    requires installment == principal * rate * q / (q - 1.0)
    requires b * rate == ClosedForm(principal, rate, installment, q)
    ensures b == 0.0
    ensures principal > 0.0 ==> installment > 0.0
  {
    assert installment * (q - 1.0) == principal * rate * q;
    assert b * rate == 0.0;
  }

  /** The equated installment: paying it every period for `numberOfPayments`
      periods brings the balance to exactly zero. */
  function CalculateEMI(principal: real, periodicRate: real, numberOfPayments: nat): (emi: real)
    requires numberOfPayments > 0 && periodicRate >= 0.0
    ensures BalanceAfter(principal, periodicRate, emi, numberOfPayments) == 0.0
    ensures principal > 0.0 ==> emi > 0.0
  {
    if periodicRate == 0.0 then
      var emi := principal / numberOfPayments as real;
      ZeroRateBalance(principal, emi, numberOfPayments);
      emi
    else
      var q := Pow(1.0 + periodicRate, numberOfPayments);
      PowAboveOne(1.0 + periodicRate, numberOfPayments);
      var emi := principal * periodicRate * q / (q - 1.0);
      BalanceClosedForm(principal, periodicRate, emi, numberOfPayments);
      AnnuityCloses(BalanceAfter(principal, periodicRate, emi, numberOfPayments), q, periodicRate, emi, principal);
      emi
  }
}
