/** The day-by-day ledger that allocates every payment: interest accrues daily on
    the outstanding principal, becomes payable on due dates together with the
    scheduled principal, and each payment is split against what is payable on
    its day. */
module Ledger {
  import opened LoanTypes
  import opened Rates
  import opened Allocation

  /** The running state of the ledger: payable principal, payable interest,
      interest accrued since the last due date, and the payments allocated. */
  datatype Ledger = Ledger(payablePrincipal: real, payableInterest: real, accrued: real, enriched: seq<EnrichedPayment>)

  const Opening := Ledger(0.0, 0.0, 0.0, [])

  /** The first schedule item due on `day`, if any. */
  function FindScheduled(schedule: seq<ScheduledPayment>, day: Day): (r: Option<ScheduledPayment>)
    ensures r.None? <==> forall j :: 0 <= j < |schedule| ==> schedule[j].scheduledDate != day
    ensures r.Some? ==> exists j :: 0 <= j < |schedule| && schedule[j] == r.value
                                     && (forall i :: 0 <= i < j ==> schedule[i].scheduledDate != day)
    ensures r.Some? ==> r.value.scheduledDate == day
  {
    if schedule == [] then None
    else if schedule[0].scheduledDate == day then Some(schedule[0])
    else
      var r := FindScheduled(schedule[1..], day);
      assert r.Some? ==> exists j :: 0 <= j < |schedule| && schedule[j] == r.value
                                     && (forall i :: 0 <= i < j ==> schedule[i].scheduledDate != day) by {
        if r.Some? {
          var j :| 0 <= j < |schedule[1..]| && schedule[1..][j] == r.value
                   && (forall i :: 0 <= i < j ==> schedule[1..][i].scheduledDate != day);
          assert forall i :: 0 < i < j + 1 ==> schedule[i] == schedule[1..][i - 1];
        }
      }
      r
  }

  /** Scheduled principal that falls due on `day`. */
  function DueOn(schedule: seq<ScheduledPayment>, day: Day): real
  {
    match FindScheduled(schedule, day)
    case None => 0.0
    case Some(s) => s.scheduledPrincipalAmount
  }

  /** The payments dated `day`, in their recorded order. */
  function OnDay(payments: seq<Payment>, day: Day): (r: seq<Payment>)
    ensures |r| <= |payments|
    ensures forall q :: q in r <==> q in payments && q.paymentDate == day
  {
    if payments == [] then []
    else
      var last := payments[|payments| - 1];
      var init := payments[..|payments| - 1];
      assert payments == init + [last];
      if last.paymentDate == day then OnDay(init, day) + [last] else OnDay(init, day)
  }

  /** Filtering by day distributes over concatenation, so the payments of a
      day keep their recorded order. */
  lemma {:induction false} OnDayConcat(a: seq<Payment>, b: seq<Payment>, day: Day)
    ensures OnDay(a + b, day) == OnDay(a, day) + OnDay(b, day)
  {
    if b == [] {
      assert a + b == a;
    } else {
      var init := b[..|b| - 1];
      assert (a + b)[..|a + b| - 1] == a + init;
      assert (a + b)[|a + b| - 1] == b[|b| - 1];
      OnDayConcat(a, init, day);
    }
  }

  /** A single payment is kept exactly when it is dated `day`. */
  lemma OnDaySingle(q: Payment, day: Day)
    ensures OnDay([q], day) == if q.paymentDate == day then [q] else []
  {
    assert [q][..0] == [];
  }

  /** Interest of one day on the principal not yet repaid by the allocated
      payments, at the rate in force on that day. */
  function DayInterest(p: LoanParams, switchDay: Day, enriched: seq<EnrichedPayment>, day: Day): real
  {
    (p.principal - SumPrincipal(enriched)) * DailyInterestRate(RateOn(p, switchDay, day))
  }

  /** The morning of `day`: its interest accrues, and on a due date everything
      accrued becomes payable together with the scheduled principal. */
  function Accrue(l: Ledger, p: LoanParams, switchDay: Day, schedule: seq<ScheduledPayment>, day: Day): (r: Ledger)
    ensures r.enriched == l.enriched
    ensures r.payableInterest + r.accrued == l.payableInterest + l.accrued + DayInterest(p, switchDay, l.enriched, day)
    ensures r.payablePrincipal == l.payablePrincipal + DueOn(schedule, day)
    ensures FindScheduled(schedule, day).Some? ==> r.accrued == 0.0
    ensures FindScheduled(schedule, day).None? ==> r.payableInterest == l.payableInterest
  {
    var accrued := l.accrued + DayInterest(p, switchDay, l.enriched, day);
    match FindScheduled(schedule, day)
    case None => l.(accrued := accrued)
    case Some(s) => Ledger(l.payablePrincipal + s.scheduledPrincipalAmount, l.payableInterest + accrued, 0.0, l.enriched)
  }

  /** Every unit of the recorded payment amount is allocated. */
  predicate Balanced(e: EnrichedPayment)
  {
    e.interestPaid + e.principalPaid + e.prepaymentFee == e.payment.paymentAmount
  }

  /** `e` records payment `q`: the same payment, whose amount is kept for a
      manual payment and may be replaced for an interest collection. */
  predicate Recorded(e: EnrichedPayment, q: Payment)
  {
    && e.payment.id == q.id
    && e.payment.paymentDate == q.paymentDate
    && e.payment.kind == q.kind
    && (q.kind == Manual ==> e.payment.paymentAmount == q.paymentAmount)
  }

  /** `e` records an interest collection that took exactly `interest`, all of
      it as interest. */
  predicate Swept(e: EnrichedPayment, interest: real)
  {
    && e.payment.paymentAmount == interest
    && e.interestPaid == interest
    && e.principalPaid == 0.0
    && e.prepaymentFee == 0.0
  }

  /** Allocates one payment against the ledger. An interest collection sweeps
      exactly the payable interest and its recorded amount becomes that
      interest; a manual payment is split by the allocation engine. */
  function ApplyPayment(l: Ledger, p: LoanParams, q: Payment): (r: Ledger)
    requires p.prepaymentFeePercentage != -100.0
    ensures |r.enriched| == |l.enriched| + 1 && r.enriched[..|l.enriched|] == l.enriched
    ensures r.accrued == l.accrued
    // what is paid leaves the payable amounts, nothing more and nothing less
    ensures r.payableInterest + SumInterest(r.enriched) == l.payableInterest + SumInterest(l.enriched)
    ensures r.payablePrincipal + SumPrincipal(r.enriched) == l.payablePrincipal + SumPrincipal(l.enriched)
    ensures Balanced(r.enriched[|l.enriched|]) && Recorded(r.enriched[|l.enriched|], q)
    ensures q.kind == Manual
         ==> r.enriched[|l.enriched|].interestPaid == Min(q.paymentAmount, l.payableInterest)
  {
    var b := if q.kind == InterestCollection then EnrichedPaymentInfo(0.0, l.payableInterest, 0.0, 0.0)
             else GetPaymentBreakdown(q.paymentAmount, l.payablePrincipal, l.payableInterest, p.prepaymentFeePercentage);
    var recorded := if q.kind == InterestCollection then q.(paymentAmount := l.payableInterest) else q;
    var e := EnrichedPayment(recorded, b.principalPaid, b.interestPaid, b.prepaymentFee);
    SumsAppend(l.enriched, e);
    assert (l.enriched + [e])[..|l.enriched|] == l.enriched;
    Ledger(l.payablePrincipal - b.principalPaid, l.payableInterest - b.interestPaid, l.accrued, l.enriched + [e])
  }

  /** An interest collection sweeps the payable interest: it takes all of it,
      as interest only, and leaves nothing payable. */
  lemma CollectionSweeps(l: Ledger, p: LoanParams, q: Payment)
    requires p.prepaymentFeePercentage != -100.0 && q.kind == InterestCollection
    ensures var r := ApplyPayment(l, p, q);
            r.payableInterest == 0.0 && Swept(r.enriched[|l.enriched|], l.payableInterest)
  {
  }

  /** A manual payment is recorded with the allocation engine's split of its
      amount against what is payable, prepayment fee included. */
  lemma ManualSplit(l: Ledger, p: LoanParams, q: Payment)
    requires p.prepaymentFeePercentage != -100.0 && q.kind == Manual
    ensures var e := ApplyPayment(l, p, q).enriched[|l.enriched|];
            var b := GetPaymentBreakdown(q.paymentAmount, l.payablePrincipal, l.payableInterest,
                                         p.prepaymentFeePercentage);
            && e.principalPaid == b.principalPaid
            && e.interestPaid == b.interestPaid
            && e.prepaymentFee == b.prepaymentFee
  {
  }

  /** With a fee percentage above -100, a payment never repays a negative
      amount of principal, so what has been repaid never falls. */
  lemma ApplyPaymentRepays(l: Ledger, p: LoanParams, q: Payment)
    requires p.prepaymentFeePercentage > -100.0
    ensures var r := ApplyPayment(l, p, q);
            && r.enriched[|l.enriched|].principalPaid >= 0.0
            && SumPrincipal(r.enriched) >= SumPrincipal(l.enriched)
  {
    var r := ApplyPayment(l, p, q);
    if q.kind == Manual {
      ManualSplit(l, p, q);
    } else {
      CollectionSweeps(l, p, q);
    }
    assert r.enriched == l.enriched + [r.enriched[|l.enriched|]] by {
      assert r.enriched[..|l.enriched|] == l.enriched;
    }
    SumsAppend(l.enriched, r.enriched[|l.enriched|]);
  }

  /** Allocates the payments in order. */
  function ApplyPayments(l: Ledger, p: LoanParams, qs: seq<Payment>): (r: Ledger)
    requires p.prepaymentFeePercentage != -100.0
    ensures |r.enriched| == |l.enriched| + |qs| && r.enriched[..|l.enriched|] == l.enriched
    ensures r.accrued == l.accrued
  {
    if qs == [] then
      assert l.enriched[..|l.enriched|] == l.enriched;
      l
    else
      var prev := ApplyPayments(l, p, qs[..|qs| - 1]);
      var r := ApplyPayment(prev, p, qs[|qs| - 1]);
      assert r.enriched[..|l.enriched|] == prev.enriched[..|l.enriched|] by {
        assert r.enriched[..|prev.enriched|] == prev.enriched;
      }
      r
  }

  lemma ApplyPaymentsStep(l: Ledger, p: LoanParams, qs: seq<Payment>, j: nat)
    requires p.prepaymentFeePercentage != -100.0 && j < |qs|
    ensures ApplyPayments(l, p, qs[..j + 1]) == ApplyPayment(ApplyPayments(l, p, qs[..j]), p, qs[j])
  {
    assert qs[..j + 1][..j] == qs[..j];
  }

  /** `es` allocates the payments `qs` one by one, each in full. */
  ghost predicate AllocatesAll(es: seq<EnrichedPayment>, qs: seq<Payment>)
  {
    |es| == |qs| && forall i :: 0 <= i < |qs| ==> Balanced(es[i]) && Recorded(es[i], qs[i])
  }

  /** Allocating a run of payments adds one fully allocated record per payment,
      in order. */
  lemma {:induction false} ApplyPaymentsAllocates(l: Ledger, p: LoanParams, qs: seq<Payment>)
    requires p.prepaymentFeePercentage != -100.0
    ensures AllocatesAll(ApplyPayments(l, p, qs).enriched[|l.enriched|..], qs)
  {
    if qs != [] {
      var init := qs[..|qs| - 1];
      var q := qs[|qs| - 1];
      var prev := ApplyPayments(l, p, init);
      var r := ApplyPayment(prev, p, q);
      assert ApplyPayments(l, p, qs) == r;
      ApplyPaymentsAllocates(l, p, init);
      var e := r.enriched[|prev.enriched|];
      assert r.enriched == prev.enriched + [e] by {
        assert r.enriched[..|prev.enriched|] == prev.enriched;
      }
      AllocatesAllAppend(l.enriched, prev.enriched, init, e, q);
      assert qs == init + [q];
    }
  }

  /** Allocating a run of payments moves exactly what is paid out of the
      payable amounts. */
  lemma {:induction false} ApplyPaymentsConserves(l: Ledger, p: LoanParams, qs: seq<Payment>)
    requires p.prepaymentFeePercentage != -100.0
    ensures var r := ApplyPayments(l, p, qs);
            && r.payableInterest + SumInterest(r.enriched) == l.payableInterest + SumInterest(l.enriched)
            && r.payablePrincipal + SumPrincipal(r.enriched) == l.payablePrincipal + SumPrincipal(l.enriched)
  {
    if qs != [] {
      ApplyPaymentsConserves(l, p, qs[..|qs| - 1]);
    }
  }

  lemma AllocatesAllAppend(base: seq<EnrichedPayment>, es: seq<EnrichedPayment>, qs: seq<Payment>,
                           e: EnrichedPayment, q: Payment)
    requires |base| <= |es| && AllocatesAll(es[|base|..], qs) && Balanced(e) && Recorded(e, q)
    ensures AllocatesAll((es + [e])[|base|..], qs + [q])
  {
    assert (es + [e])[|base|..] == es[|base|..] + [e];
  }

  /** The first payment of a batch is allocated against the ledger as it stood
      before the batch; the later ones do not change its record. */
  lemma {:induction false} FirstOfBatch(l: Ledger, p: LoanParams, qs: seq<Payment>)
    requires p.prepaymentFeePercentage != -100.0
    requires qs != []
    ensures ApplyPayments(l, p, qs).enriched[|l.enriched|] == ApplyPayment(l, p, qs[0]).enriched[|l.enriched|]
  {
    var init := qs[..|qs| - 1];
    var prev := ApplyPayments(l, p, init);
    var r := ApplyPayment(prev, p, qs[|qs| - 1]);
    if init == [] {
      assert prev == l;
      assert qs[|qs| - 1] == qs[0];
    } else {
      FirstOfBatch(l, p, init);
      assert init[0] == qs[0];
      assert r.enriched[..|prev.enriched|] == prev.enriched;
      assert r.enriched[|l.enriched|] == r.enriched[..|prev.enriched|][|l.enriched|];
    }
  }

  /** On a due date, the first manual payment of the day is split against the
      interest that has just become payable, the day's own interest included. */
  lemma DuePaymentSeesFreshInterest(p: LoanParams, switchDay: Day, schedule: seq<ScheduledPayment>,
                                    payments: seq<Payment>, day: Day)
    requires p.prepaymentFeePercentage != -100.0
    requires day > p.startDate && FindScheduled(schedule, day).Some?
    requires OnDay(payments, day) != [] && OnDay(payments, day)[0].kind == Manual
    ensures var prev := Simulate(p, switchDay, schedule, payments, day - 1);
            Simulate(p, switchDay, schedule, payments, day).enriched[|prev.enriched|].interestPaid
            == Min(OnDay(payments, day)[0].paymentAmount,
                   prev.payableInterest + prev.accrued + DayInterest(p, switchDay, prev.enriched, day))
  {
    SimulateStep(p, switchDay, schedule, payments, day);
    var prev := Simulate(p, switchDay, schedule, payments, day - 1);
    FirstManualOfBatch(Accrue(prev, p, switchDay, schedule, day), p, OnDay(payments, day));
  }

  /** The first manual payment of a batch is split against what was payable
      before the batch. */
  lemma FirstManualOfBatch(l: Ledger, p: LoanParams, qs: seq<Payment>)
    requires p.prepaymentFeePercentage != -100.0
    requires qs != [] && qs[0].kind == Manual
    ensures ApplyPayments(l, p, qs).enriched[|l.enriched|].interestPaid == Min(qs[0].paymentAmount, l.payableInterest)
  {
    FirstOfBatch(l, p, qs);
  }

  /** One whole day of the ledger: accrual first, so that a payment on a due
      date sees the interest that has just become payable, then that day's
      payments in order. */
  function SimulateDay(l: Ledger, p: LoanParams, switchDay: Day, schedule: seq<ScheduledPayment>,
                       payments: seq<Payment>, day: Day): Ledger
    requires p.prepaymentFeePercentage != -100.0
  {
    ApplyPayments(Accrue(l, p, switchDay, schedule, day), p, OnDay(payments, day))
  }

  /** The ledger after every day from the day after the loan start up to and
      including `upToDate`. */
  function Simulate(p: LoanParams, switchDay: Day, schedule: seq<ScheduledPayment>, payments: seq<Payment>,
                    upToDate: Day): Ledger
    requires p.prepaymentFeePercentage != -100.0
    decreases upToDate - p.startDate
  {
    if upToDate <= p.startDate then Opening
    else SimulateDay(Simulate(p, switchDay, schedule, payments, upToDate - 1), p, switchDay, schedule, payments, upToDate)
  }

  /** Allocates the payments of one day in order, each against what is still
      payable after the ones before it. */
  method AllocateDayPayments(payablePrincipal: real, payableInterest: real, ghost accrued: real,
                             enriched: seq<EnrichedPayment>, paymentsToDay: seq<Payment>, p: LoanParams)
    returns (newPayablePrincipal: real, newPayableInterest: real, newEnriched: seq<EnrichedPayment>)
    requires p.prepaymentFeePercentage != -100.0
    ensures ApplyPayments(Ledger(payablePrincipal, payableInterest, accrued, enriched), p, paymentsToDay)
         == Ledger(newPayablePrincipal, newPayableInterest, accrued, newEnriched)
  {
    ghost var start := Ledger(payablePrincipal, payableInterest, accrued, enriched);
    newPayablePrincipal, newPayableInterest, newEnriched := payablePrincipal, payableInterest, enriched;
    for j := 0 to |paymentsToDay|
      invariant ApplyPayments(start, p, paymentsToDay[..j])
             == Ledger(newPayablePrincipal, newPayableInterest, accrued, newEnriched)
    {
      ghost var before := Ledger(newPayablePrincipal, newPayableInterest, accrued, newEnriched);
      var payment := paymentsToDay[j];
      var recorded := payment;
      var breakdown;
      if payment.kind == InterestCollection {
        breakdown := EnrichedPaymentInfo(0.0, newPayableInterest, 0.0, 0.0);
        recorded := payment.(paymentAmount := newPayableInterest);
      } else {
        breakdown := GetPaymentBreakdown(payment.paymentAmount, newPayablePrincipal, newPayableInterest,
                                         p.prepaymentFeePercentage);
      }
      newEnriched := newEnriched
        + [EnrichedPayment(recorded, breakdown.principalPaid, breakdown.interestPaid, breakdown.prepaymentFee)];
      newPayablePrincipal := newPayablePrincipal - breakdown.principalPaid;
      newPayableInterest := newPayableInterest - breakdown.interestPaid;
      assert ApplyPayment(before, p, payment) == Ledger(newPayablePrincipal, newPayableInterest, accrued, newEnriched);
      ApplyPaymentsStep(start, p, paymentsToDay, j);
    }
    assert paymentsToDay[..|paymentsToDay|] == paymentsToDay;
  }

  /** The morning of `currentDate`: accrues its interest and, on a due date,
      makes the accrued interest and the scheduled principal payable. */
  method AccrueDay(payablePrincipal: real, payableInterest: real, accrued: real, enriched: seq<EnrichedPayment>,
                   p: LoanParams, switchDay: Day, schedule: seq<ScheduledPayment>, currentDate: Day)
    returns (newPayablePrincipal: real, newPayableInterest: real, newAccrued: real)
    ensures Accrue(Ledger(payablePrincipal, payableInterest, accrued, enriched), p, switchDay, schedule, currentDate)
         == Ledger(newPayablePrincipal, newPayableInterest, newAccrued, enriched)
  {
    newPayablePrincipal, newPayableInterest, newAccrued := payablePrincipal, payableInterest, accrued;
    var scheduledPaymentToDay := FindScheduled(schedule, currentDate);
    var annualInterestRate := if currentDate < switchDay then p.fixedRate else p.floatingRate;
    var dailyInterestRate := DailyInterestRate(annualInterestRate);
    var dayInterest := (p.principal - SumPrincipal(enriched)) * dailyInterestRate;
    assert annualInterestRate == RateOn(p, switchDay, currentDate);
    assert dayInterest == DayInterest(p, switchDay, enriched, currentDate);
    newAccrued := newAccrued + dayInterest;
    if scheduledPaymentToDay.Some? {
      newPayableInterest := newPayableInterest + newAccrued;
      newAccrued := 0.0;
      newPayablePrincipal := newPayablePrincipal + scheduledPaymentToDay.value.scheduledPrincipalAmount;
    }
  }

  method EnrichPaymentsWithBreakdownUpTo(upToDate: Day, payments: seq<Payment>, p: LoanParams,
                                         schedule: seq<ScheduledPayment>, addMonths: AddMonths)
    returns (enrichedPayments: seq<EnrichedPayment>)
    requires p.prepaymentFeePercentage != -100.0
    ensures enrichedPayments == Simulate(p, FixedPeriodEnd(p, addMonths), schedule, payments, upToDate).enriched
  {
    var payablePrincipal := 0.0;
    var payableInterest := 0.0;
    var accruedInterestThisSchedule := 0.0;
    var switchDay := FixedPeriodEnd(p, addMonths);
    var currentDate := p.startDate + 1;
    enrichedPayments := [];
    while currentDate <= upToDate
      invariant p.startDate < currentDate && (currentDate <= upToDate + 1 || currentDate == p.startDate + 1)
      invariant Simulate(p, switchDay, schedule, payments, currentDate - 1)
             == Ledger(payablePrincipal, payableInterest, accruedInterestThisSchedule, enrichedPayments)
      decreases upToDate - currentDate
    {
      var paymentsToDay := OnDay(payments, currentDate);
      payablePrincipal, payableInterest, accruedInterestThisSchedule :=
        AccrueDay(payablePrincipal, payableInterest, accruedInterestThisSchedule, enrichedPayments,
                  p, switchDay, schedule, currentDate);
      payablePrincipal, payableInterest, enrichedPayments :=
        AllocateDayPayments(payablePrincipal, payableInterest, accruedInterestThisSchedule, enrichedPayments, paymentsToDay, p);
      currentDate := currentDate + 1;
    }
  }

  /** The payments the ledger has seen after the days up to `upToDate`: those
      of each day from the day after the loan start, day by day. */
  function PaymentsThrough(p: LoanParams, payments: seq<Payment>, upToDate: Day): seq<Payment>
    decreases upToDate - p.startDate
  {
    if upToDate <= p.startDate then [] else PaymentsThrough(p, payments, upToDate - 1) + OnDay(payments, upToDate)
  }

  /** No payment is lost or invented: the ledger sees exactly the payments dated
      after the loan start and on or before `upToDate`. */
  lemma {:induction false} PaymentsThroughExactly(p: LoanParams, payments: seq<Payment>, upToDate: Day, q: Payment)
    ensures q in PaymentsThrough(p, payments, upToDate)
        <==> q in payments && p.startDate < q.paymentDate <= upToDate
    decreases upToDate - p.startDate
  {
    if upToDate > p.startDate {
      PaymentsThroughExactly(p, payments, upToDate - 1, q);
    }
  }

  lemma SimulateStep(p: LoanParams, switchDay: Day, schedule: seq<ScheduledPayment>, payments: seq<Payment>, day: Day)
    requires p.prepaymentFeePercentage != -100.0 && day > p.startDate
    ensures Simulate(p, switchDay, schedule, payments, day)
         == ApplyPayments(Accrue(Simulate(p, switchDay, schedule, payments, day - 1), p, switchDay, schedule, day),
                          p, OnDay(payments, day))
  {
  }

  /** Every payment the ledger has seen is recorded once, in order, and
      allocated in full. */
  lemma {:induction false} SimulateAllocatesAll(p: LoanParams, switchDay: Day, schedule: seq<ScheduledPayment>,
                                                payments: seq<Payment>, upToDate: Day)
    requires p.prepaymentFeePercentage != -100.0
    ensures AllocatesAll(Simulate(p, switchDay, schedule, payments, upToDate).enriched, PaymentsThrough(p, payments, upToDate))
    decreases upToDate - p.startDate
  {
    if upToDate > p.startDate {
      var prev := Simulate(p, switchDay, schedule, payments, upToDate - 1);
      var morning := Accrue(prev, p, switchDay, schedule, upToDate);
      SimulateStep(p, switchDay, schedule, payments, upToDate);
      SimulateAllocatesAll(p, switchDay, schedule, payments, upToDate - 1);
      DayAllocates(prev, morning, p, PaymentsThrough(p, payments, upToDate - 1), OnDay(payments, upToDate));
      assert PaymentsThrough(p, payments, upToDate)
          == PaymentsThrough(p, payments, upToDate - 1) + OnDay(payments, upToDate);
    }
  }

  /** A day's batch extends a fully allocated record by its own payments. */
  lemma DayAllocates(prev: Ledger, morning: Ledger, p: LoanParams, before: seq<Payment>, today: seq<Payment>)
    requires p.prepaymentFeePercentage != -100.0
    requires AllocatesAll(prev.enriched, before) && morning.enriched == prev.enriched
    ensures AllocatesAll(ApplyPayments(morning, p, today).enriched, before + today)
  {
    var r := ApplyPayments(morning, p, today);
    ApplyPaymentsAllocates(morning, p, today);
    assert r.enriched == prev.enriched + r.enriched[|prev.enriched|..] by {
      assert r.enriched[..|prev.enriched|] == prev.enriched;
    }
    assert AllocatesAll(prev.enriched + r.enriched[|prev.enriched|..], before + today);
  }

  /** No record repays a negative amount of principal. */
  ghost predicate RepaysNonNegative(es: seq<EnrichedPayment>)
  {
    forall i :: 0 <= i < |es| ==> es[i].principalPaid >= 0.0
  }

  lemma {:induction false} ApplyPaymentsRepay(l: Ledger, p: LoanParams, qs: seq<Payment>)
    requires p.prepaymentFeePercentage > -100.0 && RepaysNonNegative(l.enriched)
    ensures var r := ApplyPayments(l, p, qs);
            RepaysNonNegative(r.enriched) && SumPrincipal(r.enriched) >= SumPrincipal(l.enriched)
  {
    if qs != [] {
      var prev := ApplyPayments(l, p, qs[..|qs| - 1]);
      ApplyPaymentsRepay(l, p, qs[..|qs| - 1]);
      ApplyPaymentRepays(prev, p, qs[|qs| - 1]);
      var r := ApplyPayment(prev, p, qs[|qs| - 1]);
      assert r.enriched[..|prev.enriched|] == prev.enriched;
    }
  }

  /** The outstanding principal (the principal less everything repaid) never
      rises from one day to the next: with a fee percentage above -100 every
      record repays a non-negative amount of principal. Nothing keeps it from
      going below zero. */
  lemma {:induction false} OutstandingNeverRises(p: LoanParams, switchDay: Day, schedule: seq<ScheduledPayment>,
                                                 payments: seq<Payment>, upToDate: Day)
    requires p.prepaymentFeePercentage > -100.0
    ensures RepaysNonNegative(Simulate(p, switchDay, schedule, payments, upToDate).enriched)
    ensures upToDate > p.startDate
        ==> p.principal - SumPrincipal(Simulate(p, switchDay, schedule, payments, upToDate).enriched)
            <= p.principal - SumPrincipal(Simulate(p, switchDay, schedule, payments, upToDate - 1).enriched)
    decreases upToDate - p.startDate
  {
    if upToDate > p.startDate {
      var prev := Simulate(p, switchDay, schedule, payments, upToDate - 1);
      var morning := Accrue(prev, p, switchDay, schedule, upToDate);
      SimulateStep(p, switchDay, schedule, payments, upToDate);
      OutstandingNeverRises(p, switchDay, schedule, payments, upToDate - 1);
      ApplyPaymentsRepay(morning, p, OnDay(payments, upToDate));
    }
  }

  /** Interest accrued by the ledger over the days up to `upToDate`, each day on
      the principal not yet repaid by the payments allocated before it. */
  function InterestAccruedThrough(p: LoanParams, switchDay: Day, schedule: seq<ScheduledPayment>,
                                  payments: seq<Payment>, upToDate: Day): real
    requires p.prepaymentFeePercentage != -100.0
    decreases upToDate - p.startDate
  {
    if upToDate <= p.startDate then 0.0
    else InterestAccruedThrough(p, switchDay, schedule, payments, upToDate - 1)
         + DayInterest(p, switchDay, Simulate(p, switchDay, schedule, payments, upToDate - 1).enriched, upToDate)
  }

  /** Interest is neither created nor lost: every unit accrued is still
      accruing, payable, or paid. */
  lemma {:induction false} SimulateConservesInterest(p: LoanParams, switchDay: Day, schedule: seq<ScheduledPayment>,
                                                     payments: seq<Payment>, upToDate: Day)
    requires p.prepaymentFeePercentage != -100.0
    ensures var l := Simulate(p, switchDay, schedule, payments, upToDate);
            l.accrued + l.payableInterest + SumInterest(l.enriched)
            == InterestAccruedThrough(p, switchDay, schedule, payments, upToDate)
    decreases upToDate - p.startDate
  {
    if upToDate > p.startDate {
      var prev := Simulate(p, switchDay, schedule, payments, upToDate - 1);
      var morning := Accrue(prev, p, switchDay, schedule, upToDate);
      SimulateStep(p, switchDay, schedule, payments, upToDate);
      SimulateConservesInterest(p, switchDay, schedule, payments, upToDate - 1);
      ApplyPaymentsConserves(morning, p, OnDay(payments, upToDate));
    }
  }

  /** Scheduled principal that has fallen due on the days up to `upToDate`. */
  function PrincipalDueThrough(p: LoanParams, schedule: seq<ScheduledPayment>, upToDate: Day): real
    decreases upToDate - p.startDate
  {
    if upToDate <= p.startDate then 0.0 else PrincipalDueThrough(p, schedule, upToDate - 1) + DueOn(schedule, upToDate)
  }

  /** Principal is neither created nor lost: everything that has fallen due is
      either still payable or paid, so payable principal goes negative by
      exactly the amount prepaid. */
  lemma {:induction false} SimulateConservesPrincipal(p: LoanParams, switchDay: Day, schedule: seq<ScheduledPayment>,
                                                      payments: seq<Payment>, upToDate: Day)
    requires p.prepaymentFeePercentage != -100.0
    ensures var l := Simulate(p, switchDay, schedule, payments, upToDate);
            l.payablePrincipal + SumPrincipal(l.enriched) == PrincipalDueThrough(p, schedule, upToDate)
    decreases upToDate - p.startDate
  {
    if upToDate > p.startDate {
      var prev := Simulate(p, switchDay, schedule, payments, upToDate - 1);
      var morning := Accrue(prev, p, switchDay, schedule, upToDate);
      SimulateStep(p, switchDay, schedule, payments, upToDate);
      SimulateConservesPrincipal(p, switchDay, schedule, payments, upToDate - 1);
      ApplyPaymentsConserves(morning, p, OnDay(payments, upToDate));
    }
  }

  /** Sum of the scheduled principal of the items dated after `lo` and on or
      before `hi`. */
  function ScheduledBetween(schedule: seq<ScheduledPayment>, lo: Day, hi: Day): real
  {
    if schedule == [] then 0.0
    else (if lo < schedule[0].scheduledDate <= hi then schedule[0].scheduledPrincipalAmount else 0.0)
         + ScheduledBetween(schedule[1..], lo, hi)
  }

  ghost predicate DistinctDates(schedule: seq<ScheduledPayment>)
  {
    forall i, j :: 0 <= i < j < |schedule| ==> schedule[i].scheduledDate != schedule[j].scheduledDate
  }

  lemma {:induction false} ScheduledBetweenSplit(schedule: seq<ScheduledPayment>, lo: Day, hi: Day)
    requires lo < hi
    ensures ScheduledBetween(schedule, lo, hi) == ScheduledBetween(schedule, lo, hi - 1) + ScheduledBetween(schedule, hi - 1, hi)
  {
    if schedule != [] {
      ScheduledBetweenSplit(schedule[1..], lo, hi);
    }
  }

  lemma {:induction false} ScheduledBetweenNone(schedule: seq<ScheduledPayment>, day: Day)
    requires forall j :: 0 <= j < |schedule| ==> schedule[j].scheduledDate != day
    ensures ScheduledBetween(schedule, day - 1, day) == 0.0
  {
    if schedule != [] {
      ScheduledBetweenNone(schedule[1..], day);
    }
  }

  /** With distinct due dates, the principal falling due on a day is the
      scheduled principal of the item dated that day. */
  lemma {:induction false} DueOnIsScheduled(schedule: seq<ScheduledPayment>, day: Day)
    requires DistinctDates(schedule)
    ensures DueOn(schedule, day) == ScheduledBetween(schedule, day - 1, day)
  {
    if schedule != [] {
      var rest := schedule[1..];
      if schedule[0].scheduledDate == day {
        assert forall j :: 0 <= j < |rest| ==> rest[j].scheduledDate != day by {
          forall j | 0 <= j < |rest|
            ensures rest[j].scheduledDate != day
          {
            assert rest[j] == schedule[j + 1];
          }
        }
        ScheduledBetweenNone(rest, day);
      } else {
        assert DistinctDates(rest) by {
          forall i, j | 0 <= i < j < |rest|
            ensures rest[i].scheduledDate != rest[j].scheduledDate
          {
            assert rest[i] == schedule[i + 1] && rest[j] == schedule[j + 1];
          }
        }
        DueOnIsScheduled(rest, day);
      }
    }
  }

  /** With distinct due dates, the principal the ledger has made payable is the
      scheduled principal of every item dated after the loan start and on or
      before `upToDate`. */
  lemma {:induction false} PrincipalDueIsScheduled(p: LoanParams, schedule: seq<ScheduledPayment>, upToDate: Day)
    requires DistinctDates(schedule)
    ensures PrincipalDueThrough(p, schedule, upToDate) == ScheduledBetween(schedule, p.startDate, upToDate)
    decreases upToDate - p.startDate
  {
    if upToDate > p.startDate {
      PrincipalDueIsScheduled(p, schedule, upToDate - 1);
      DueOnIsScheduled(schedule, upToDate);
      ScheduledBetweenSplit(schedule, p.startDate, upToDate);
    } else {
      ScheduledBetweenEmpty(schedule, p.startDate, upToDate);
    }
  }

  lemma {:induction false} ScheduledBetweenEmpty(schedule: seq<ScheduledPayment>, lo: Day, hi: Day)
    requires hi <= lo
    ensures ScheduledBetween(schedule, lo, hi) == 0.0
  {
    if schedule != [] {
      ScheduledBetweenEmpty(schedule[1..], lo, hi);
    }
  }
}
