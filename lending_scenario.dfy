/** A client of the engine that uses only the operations' contracts: an
    application is created, quoted at 6.00 by every lender, its first bid is
    accepted (60 installments for a five-year tenure), and three missed
    installments make it non-performing. */
module LendingScenario {
  import opened LendingTypes
  import opened QuotePolicy
  import opened RepaymentScheduler
  import opened DefaultMonitor
  import opened LifecycleEngine

  method LoanLifecycle(ctx: TxContext, now: Instant)
  {
    var engine := new SmartLending();
    var ok := PutOutcome(true, true);
    var created := engine.CreateLoanApplication("APP-1", "Make", "Model", 60000.0, "1234567", 35, 2500.0, 650, 5,
                                                ctx, now, ok, ok);
    assert created.Success?;
    var app := created.value;
    assert app.status == STATE_QUOTATIONS_RECEIVED && |app.quotations| == 4;
    var p := EvaluationParams("APP-1", 60000.0, "1234567", 35, 2500.0, 650, 5);
    assert QuoteDrawn(app.quotations[0], 1, p, now);
    TypicalApplicantRate(1, p, app.quotations[0].biddingNumber, now);
    var winner := app.quotations[0];
    assert winner.interestRate == 6.0 && winner.tenure == 5;

    var confirmed := engine.ConfirmBid("APP-1", winner.biddingNumber, STATE_BID_ACCEPTED, ctx, now, ok);
    assert LastMatch(app.quotations, winner.biddingNumber) >= 0;
    assert confirmed.quotations[0].isWinningBid;
    assert |confirmed.repaymentSchedule| == 60;
    assert confirmed.status == STATE_BID_ACCEPTED;

    var s0 := confirmed.repaymentSchedule;
    assert s0 == RepaymentSchedule(winner);
    FreshScheduleLookup(winner, 1);
    FreshScheduleLookup(winner, 2);
    FreshScheduleLookup(winner, 3);
    var m := InstallmentMetadata(ctx, now);

    var paid1 := engine.ChangePaymentStatus("APP-1", 1, STATE_MISSED, ctx, now, ok);
    assert paid1.repaymentSchedule == ScheduleAfterPayment(s0, 1, STATE_MISSED, m);
    var paid2 := engine.ChangePaymentStatus("APP-1", 2, STATE_MISSED, ctx, now, ok);
    assert paid2.repaymentSchedule == ScheduleAfterPayment(paid1.repaymentSchedule, 2, STATE_MISSED, m);
    var paid3 := engine.ChangePaymentStatus("APP-1", 3, STATE_MISSED, ctx, now, ok);
    assert paid3.repaymentSchedule == ScheduleAfterPayment(paid2.repaymentSchedule, 3, STATE_MISSED, m);
    ThreeMissedPaymentsDefault(s0, 1, 2, 3, m, m, m);
    assert paid3.status == STATE_NON_PERFORMING;
  }
}
