/** The lifecycle engine: the record store keyed by application number and
    the operations that create an application, confirm a bid, record an
    installment payment and read an application back. Each write goes
    through `SaveApplicationDetails`, which appends an audit entry when the
    first put succeeds. The outcome of each `PutState`, the transaction
    context and the clock are parameters. */
module LifecycleEngine {
  import opened LendingTypes
  import opened QuotePolicy
  import opened RepaymentScheduler
  import opened DefaultMonitor

  /** Whether the two `PutState` calls of one save succeed: the first stores
      the record as it came in, the second the record with its audit entry. */
  datatype PutOutcome = PutOutcome(recordPut: bool, auditedPut: bool)

  /** The audit entry of a save: the current status and the transaction context. */
  function TransactionMetadataOf(ctx: TxContext, now: Instant, app: LoanApplication): (m: TransactionMetadata)
    ensures m.applicationState == app.status
  {
    TransactionMetadata(app.status, ctx.transactionId, ctx.transactionTimestamp, now, ctx.callerMetadata)
  }

  /** The metadata stamped on a paid installment; its application state is
      never filled in and stays zero. */
  function InstallmentMetadata(ctx: TxContext, now: Instant): (m: TransactionMetadata)
    ensures m.applicationState == 0
    ensures m.transactionId == ctx.transactionId && m.transactionTimestamp == ctx.transactionTimestamp
    ensures m.transactionDate == now && m.callerMetadata == ctx.callerMetadata
  {
    TransactionMetadata(0, ctx.transactionId, ctx.transactionTimestamp, now, ctx.callerMetadata)
  }

  /** The record a save returns. */
  function Audited(app: LoanApplication, recordPut: bool, entry: TransactionMetadata): LoanApplication
  {
    if recordPut then app.(transactions := app.transactions + [entry]) else app
  }

  /** The store after a save. */
  function StoreAfterSave(store: map<string, LoanApplication>, app: LoanApplication, puts: PutOutcome,
                          entry: TransactionMetadata): map<string, LoanApplication>
  {
    if puts.auditedPut then store[app.applicationNumber := Audited(app, puts.recordPut, entry)]
    else if puts.recordPut then store[app.applicationNumber := app]
    else store
  }

  /** `GetState` followed by decoding: a missing key decodes to the zero record. */
  function Load(store: map<string, LoanApplication>, applicationNumber: string): (r: LoanApplication)
    ensures applicationNumber in store ==> r == store[applicationNumber]
    ensures applicationNumber !in store ==> r == ZeroApplication
    ensures applicationNumber !in store ==>
              r.applicationNumber == "" && r.quotations == [] && r.repaymentSchedule == [] && r.transactions == []
  {
    if applicationNumber in store then store[applicationNumber] else ZeroApplication
  }

  /** The record built from the application's inputs. The tenure is not
      copied into it; only the quotations carry it. */
  function NewApplication(applicationNumber: string, make: string, model: string, loanAmount: real,
                          ssn: string, age: int, monthlyIncome: real, creditScore: int): (r: LoanApplication)
    ensures r.applicationNumber == applicationNumber && r.make == make && r.model == model
    ensures r.loanAmount == loanAmount && r.ssn == ssn && r.age == age
    ensures r.monthlyIncome == monthlyIncome && r.creditScore == creditScore
    ensures r.status == STATE_APPLIED && r.accountNumber == 0 && r.tenure == 0
    ensures r.transactions == [] && r.quotations == [] && r.repaymentSchedule == []
  {
    LoanApplication(applicationNumber, 0, make, model, loanAmount, ssn, age, monthlyIncome, creditScore,
                    STATE_APPLIED, 0, [], [], [])
  }

  /** The four quotations of an application, lenders 1 to 4 in order. */
  ghost predicate QuotesDrawn(qs: seq<BiddingDetails>, p: EvaluationParams, now: Instant)
  {
    |qs| == 4 && forall i :: 0 <= i < 4 ==> QuoteDrawn(qs[i], i + 1, p, now)
  }

  /** Every accepted quotation of an application carries its lender's id
      (1 to 4, in order) and the requested tenure; every rejected one
      carries neither. */
  lemma QuotesDrawnTerms(qs: seq<BiddingDetails>, p: EvaluationParams, now: Instant)
    requires QuotesDrawn(qs, p, now)
    ensures forall i :: 0 <= i < 4 ==>
              if qs[i].applicationAcceptStatus == LENDER_ACCEPT_APPLICATION
              then qs[i].lenderId == i + 1 && qs[i].tenure == p.tenure
              else qs[i].lenderId == 0 && qs[i].tenure == 0
  {
    forall i | 0 <= i < 4
      ensures if qs[i].applicationAcceptStatus == LENDER_ACCEPT_APPLICATION
              then qs[i].lenderId == i + 1 && qs[i].tenure == p.tenure
              else qs[i].lenderId == 0 && qs[i].tenure == 0
    {
      assert QuoteDrawn(qs[i], i + 1, p, now);
    }
  }

  /** Asks lenders 1 to 4 for a quote, in that order. */
  method CollectQuotes(p: EvaluationParams, now: Instant) returns (quotes: seq<BiddingDetails>)
    ensures QuotesDrawn(quotes, p, now)
  {
    var quote1 := DrawQuote(1, p, now);
    var quote2 := DrawQuote(2, p, now);
    var quote3 := DrawQuote(3, p, now);
    var quote4 := DrawQuote(4, p, now);
    quotes := [quote1, quote2, quote3, quote4];
  }

  // ---------------------------------------------------------------------------
  // Bid confirmation

  /** Index of the last quotation with the given bidding number, or -1. */
  function LastMatch(qs: seq<BiddingDetails>, biddingNumber: int): (k: int)
    ensures -1 <= k < |qs|
    ensures k >= 0 ==> qs[k].biddingNumber == biddingNumber
    ensures forall j :: k < j < |qs| ==> qs[j].biddingNumber != biddingNumber
  {
    if qs == [] then -1
    else if qs[|qs| - 1].biddingNumber == biddingNumber then |qs| - 1
    else LastMatch(qs[..|qs| - 1], biddingNumber)
  }

  /** Extending the scanned prefix by one quotation. */
  lemma LastMatchExtend(qs: seq<BiddingDetails>, biddingNumber: int, i: int)
    requires 0 <= i < |qs|
    ensures LastMatch(qs[..i + 1], biddingNumber)
            == if qs[i].biddingNumber == biddingNumber then i else LastMatch(qs[..i], biddingNumber)
  {
    assert qs[..i + 1][..i] == qs[..i];
  }

  /** Every quotation with the given bidding number flagged winning. */
  function FlagWinning(qs: seq<BiddingDetails>, biddingNumber: int): (r: seq<BiddingDetails>)
  {
    seq(|qs|, j requires 0 <= j < |qs| =>
      if qs[j].biddingNumber == biddingNumber then qs[j].(isWinningBid := true) else qs[j])
  }

  /** What confirming bid `biddingNumber` with `bidStatus` does to `app`:
      the status is set to `bidStatus` whatever it is; only an acceptance
      flags every matching quotation, and the last match gets a fresh account
      number and its repayment schedule; nothing else changes. */
  ghost predicate BidApplied(app: LoanApplication, biddingNumber: int, bidStatus: int, r: LoanApplication)
  {
    && r.status == bidStatus
    && r.quotations == (if bidStatus == STATE_BID_ACCEPTED then FlagWinning(app.quotations, biddingNumber)
                        else app.quotations)
    && (var k := LastMatch(app.quotations, biddingNumber);
        if bidStatus == STATE_BID_ACCEPTED && k >= 0 then
          0 <= r.accountNumber < IDENTIFIER_RANGE && r.repaymentSchedule == RepaymentSchedule(app.quotations[k])
        else
          r.accountNumber == app.accountNumber && r.repaymentSchedule == app.repaymentSchedule)
    && r == app.(status := bidStatus, quotations := r.quotations, accountNumber := r.accountNumber,
                 repaymentSchedule := r.repaymentSchedule)
  }

  /** `rand.Intn(100000)` for an account number. */
  method GenerateAccountNumber() returns (n: int)
    ensures 0 <= n < IDENTIFIER_RANGE
  {
    n :| 0 <= n < IDENTIFIER_RANGE;
  }

  /** The state of the `ConfirmBid` loop after scanning the first `i`
      quotations of `app`. */
  ghost predicate BidScanned(app: LoanApplication, biddingNumber: int, bidStatus: int, i: int,
                             quotations: seq<BiddingDetails>, accountNumber: int, schedule: seq<PaymentDetail>)
  {
    var qs := app.quotations;
    && 0 <= i <= |qs| == |quotations|
    && (forall j :: 0 <= j < |qs| ==>
          quotations[j] == if j < i && qs[j].biddingNumber == biddingNumber && bidStatus == STATE_BID_ACCEPTED
                           then qs[j].(isWinningBid := true) else qs[j])
    && (var k := LastMatch(qs[..i], biddingNumber);
        if bidStatus == STATE_BID_ACCEPTED && k >= 0 then
          0 <= accountNumber < IDENTIFIER_RANGE && schedule == RepaymentSchedule(qs[k])
        else
          accountNumber == app.accountNumber && schedule == app.repaymentSchedule)
  }

  lemma BidScanStep(app: LoanApplication, biddingNumber: int, bidStatus: int, i: int,
                    quotations: seq<BiddingDetails>, accountNumber: int, schedule: seq<PaymentDetail>,
                    quotations': seq<BiddingDetails>, accountNumber': int, schedule': seq<PaymentDetail>)
    requires BidScanned(app, biddingNumber, bidStatus, i, quotations, accountNumber, schedule)
    requires i < |quotations|
    requires if quotations[i].biddingNumber == biddingNumber && bidStatus == STATE_BID_ACCEPTED then
               && quotations' == quotations[i := quotations[i].(isWinningBid := true)]
               && 0 <= accountNumber' < IDENTIFIER_RANGE && schedule' == RepaymentSchedule(quotations'[i])
             else
               quotations' == quotations && accountNumber' == accountNumber && schedule' == schedule
    ensures BidScanned(app, biddingNumber, bidStatus, i + 1, quotations', accountNumber', schedule')
  {
    LastMatchExtend(app.quotations, biddingNumber, i);
    if quotations[i].biddingNumber == biddingNumber && bidStatus == STATE_BID_ACCEPTED {
      ScheduleIgnoresOtherTerms(quotations'[i], app.quotations[i]);
    }
  }

  lemma BidScanDone(app: LoanApplication, biddingNumber: int, bidStatus: int,
                    quotations: seq<BiddingDetails>, accountNumber: int, schedule: seq<PaymentDetail>)
    requires BidScanned(app, biddingNumber, bidStatus, |app.quotations|, quotations, accountNumber, schedule)
    ensures BidApplied(app, biddingNumber, bidStatus,
                       app.(status := bidStatus, quotations := quotations, accountNumber := accountNumber,
                            repaymentSchedule := schedule))
  {
    assert app.quotations[..|app.quotations|] == app.quotations;
  }

  /** The loop of `ConfirmBid` over the quotations; it does not stop at the
      first match. */
  method MarkWinningBid(app: LoanApplication, biddingNumber: int, bidStatus: int) returns (r: LoanApplication)
    ensures BidApplied(app, biddingNumber, bidStatus, r)
  {
    var quotations, accountNumber, schedule := app.quotations, app.accountNumber, app.repaymentSchedule;
    var i := 0;
    while i < |quotations|
      invariant BidScanned(app, biddingNumber, bidStatus, i, quotations, accountNumber, schedule)
    {
      var quotations', accountNumber', schedule' := quotations, accountNumber, schedule;
      if quotations[i].biddingNumber == biddingNumber && bidStatus == STATE_BID_ACCEPTED {
        quotations' := quotations[i := quotations[i].(isWinningBid := true)];
        accountNumber' := GenerateAccountNumber();
        schedule' := GenerateRepaymentSchedule(quotations'[i]);
      }
      BidScanStep(app, biddingNumber, bidStatus, i, quotations, accountNumber, schedule,
                  quotations', accountNumber', schedule');
      quotations, accountNumber, schedule := quotations', accountNumber', schedule';
      i := i + 1;
    }
    BidScanDone(app, biddingNumber, bidStatus, quotations, accountNumber, schedule);
    r := app.(status := bidStatus, quotations := quotations, accountNumber := accountNumber,
              repaymentSchedule := schedule);
  }

  /** With distinct bidding numbers and no earlier winner, accepting a bid
      that matches leaves exactly that quotation winning. */
  lemma SingleWinnerWhenNumbersDistinct(app: LoanApplication, biddingNumber: int, r: LoanApplication, m: int)
    requires forall i, j :: 0 <= i < j < |app.quotations| ==>
               app.quotations[i].biddingNumber != app.quotations[j].biddingNumber
    requires forall i :: 0 <= i < |app.quotations| ==> !app.quotations[i].isWinningBid
    requires 0 <= m < |app.quotations| && app.quotations[m].biddingNumber == biddingNumber
    requires BidApplied(app, biddingNumber, STATE_BID_ACCEPTED, r)
    ensures forall i :: 0 <= i < |r.quotations| ==> (r.quotations[i].isWinningBid <==> i == m)
    ensures r.repaymentSchedule == RepaymentSchedule(app.quotations[m])
  {
    var k := LastMatch(app.quotations, biddingNumber);
    assert k == m;
  }

  // ---------------------------------------------------------------------------
  // Payment status

  /** Index of the first installment with the given number, or -1. */
  function FirstInstallment(s: seq<PaymentDetail>, installmentNumber: int): (k: int)
    ensures -1 <= k < |s|
    ensures k >= 0 ==> s[k].installmentNumber == installmentNumber
    ensures forall j :: 0 <= j < (if k < 0 then |s| else k) ==> s[j].installmentNumber != installmentNumber
  {
    if s == [] then -1
    else if s[0].installmentNumber == installmentNumber then 0
    else
      var k := FirstInstallment(s[1..], installmentNumber);
      if k < 0 then -1 else k + 1
  }

  /** The schedule after recording a payment: the first installment with the
      number gets the new status and metadata; with no such installment the
      schedule is unchanged. */
  function ScheduleAfterPayment(s: seq<PaymentDetail>, installmentNumber: int, repaymentStatus: int,
                                metadata: TransactionMetadata): seq<PaymentDetail>
  {
    var k := FirstInstallment(s, installmentNumber);
    if k < 0 then s else s[k := s[k].(repaymentStatus := repaymentStatus, metadata := metadata)]
  }

  /** Only the first matching installment changes, and only its status and
      metadata; length and order are kept. */
  lemma PaymentTouchesOnlyFirstMatch(s: seq<PaymentDetail>, installmentNumber: int, repaymentStatus: int,
                                     metadata: TransactionMetadata)
    ensures var r := ScheduleAfterPayment(s, installmentNumber, repaymentStatus, metadata);
            && |r| == |s|
            && (forall j :: 0 <= j < |s| && s[j].installmentNumber != installmentNumber ==> r[j] == s[j])
            && (forall j :: 0 <= j < |s| ==>
                  r[j] == s[j] || r[j] == s[j].(repaymentStatus := repaymentStatus, metadata := metadata))
            && (forall i, j :: 0 <= i < j < |s| && s[i].installmentNumber == installmentNumber ==> r[j] == s[j])
            && ((forall j :: 0 <= j < |s| ==> s[j].installmentNumber != installmentNumber) ==> r == s)
            && (FirstInstallment(s, installmentNumber) >= 0 ==>
                  r[FirstInstallment(s, installmentNumber)]
                  == s[FirstInstallment(s, installmentNumber)].(repaymentStatus := repaymentStatus, metadata := metadata))
  {
  }

  /** In a freshly generated schedule installment `n` sits at position `n - 1`. */
  lemma FreshScheduleLookup(q: BiddingDetails, n: int)
    requires 1 <= n <= |RepaymentSchedule(q)|
    ensures FirstInstallment(RepaymentSchedule(q), n) == n - 1
  {
    var s := RepaymentSchedule(q);
    var k := FirstInstallment(s, n);
    assert s[n - 1].installmentNumber == n;
    if k >= 0 {
      assert s[k].installmentNumber == k + 1;
    }
  }

  /** Recording a payment keeps every installment number, so later lookups
      find the same positions. */
  lemma PaymentKeepsInstallmentNumbers(s: seq<PaymentDetail>, installmentNumber: int, repaymentStatus: int,
                                       metadata: TransactionMetadata, n: int)
    ensures FirstInstallment(ScheduleAfterPayment(s, installmentNumber, repaymentStatus, metadata), n)
            == FirstInstallment(s, n)
  {
    var r := ScheduleAfterPayment(s, installmentNumber, repaymentStatus, metadata);
    assert |r| == |s| && forall j :: 0 <= j < |s| ==> r[j].installmentNumber == s[j].installmentNumber;
    var a, b := FirstInstallment(r, n), FirstInstallment(s, n);
    if a < 0 || b < 0 {
      assert a < 0 && b < 0;
    } else {
      assert !(a < b) && !(b < a);
    }
  }

  /** Marking three different installments of a schedule as missed makes
      the application non-performing, whatever the schedule held before. */
  lemma ThreeMissedPaymentsDefault(s: seq<PaymentDetail>, a: int, b: int, c: int,
                                   m1: TransactionMetadata, m2: TransactionMetadata, m3: TransactionMetadata)
    requires a != b && b != c && a != c
    requires FirstInstallment(s, a) >= 0 && FirstInstallment(s, b) >= 0 && FirstInstallment(s, c) >= 0
    ensures var s1 := ScheduleAfterPayment(s, a, STATE_MISSED, m1);
            var s2 := ScheduleAfterPayment(s1, b, STATE_MISSED, m2);
            DefaultStatus(ScheduleAfterPayment(s2, c, STATE_MISSED, m3)) == STATE_NON_PERFORMING
  {
    var s1 := ScheduleAfterPayment(s, a, STATE_MISSED, m1);
    var s2 := ScheduleAfterPayment(s1, b, STATE_MISSED, m2);
    var s3 := ScheduleAfterPayment(s2, c, STATE_MISSED, m3);
    var i, j, k := FirstInstallment(s, a), FirstInstallment(s, b), FirstInstallment(s, c);
    PaymentKeepsInstallmentNumbers(s, a, STATE_MISSED, m1, b);
    PaymentKeepsInstallmentNumbers(s, a, STATE_MISSED, m1, c);
    PaymentKeepsInstallmentNumbers(s1, b, STATE_MISSED, m2, c);
    assert s[i].installmentNumber == a && s[j].installmentNumber == b && s[k].installmentNumber == c;
    assert IsMissed(s3[i]) && IsMissed(s3[j]) && IsMissed(s3[k]);
    ThreeDistinctMissedCounted(s3, i, j, k);
  }

  /** The loop of `ChangePaymentStatus` over the schedule; it stops at the
      first match. */
  method MarkInstallment(s: seq<PaymentDetail>, installmentNumber: int, repaymentStatus: int,
                         metadata: TransactionMetadata) returns (r: seq<PaymentDetail>)
    ensures r == ScheduleAfterPayment(s, installmentNumber, repaymentStatus, metadata)
  {
    r := s;
    var i := 0;
    while i < |r|
      invariant 0 <= i <= |r| && r == s
      invariant forall j :: 0 <= j < i ==> s[j].installmentNumber != installmentNumber
    {
      if r[i].installmentNumber == installmentNumber {
        r := r[i := r[i].(repaymentStatus := repaymentStatus, metadata := metadata)];
        return;
      }
      i := i + 1;
    }
  }

  // ---------------------------------------------------------------------------
  // The store

  class SmartLending {
    var records: map<string, LoanApplication>

    /** Every record is stored under its own application number. */
    ghost predicate Valid()
      reads this
    {
      forall key :: key in records ==> records[key].applicationNumber == key
    }

    constructor ()
      ensures Valid() && records == map[]
    {
      records := map[];
    }

    /** Reads a stored record back verbatim. */
    function GetLoanApplicationDetails(applicationNumber: string): (r: Result<LoanApplication>)
      reads this
      requires Valid()
      ensures r.Success? <==> applicationNumber in records
      ensures r.Success? ==> r.value == records[applicationNumber] && r.value.applicationNumber == applicationNumber
      ensures r.Failure? ==> r.error == ApplicationNotFound
    {
      if applicationNumber in records then Success(records[applicationNumber]) else Failure(ApplicationNotFound)
    }

    /** Stores `app` and, when that first put succeeds, appends one audit entry
        holding the current status, and stores the record again. */
    method SaveApplicationDetails(app: LoanApplication, ctx: TxContext, now: Instant, puts: PutOutcome)
      returns (r: LoanApplication)
      requires Valid()
      modifies this
      ensures Valid()
      ensures r == Audited(app, puts.recordPut, TransactionMetadataOf(ctx, now, app))
      ensures records == StoreAfterSave(old(records), app, puts, TransactionMetadataOf(ctx, now, app))
      ensures puts.recordPut ==>
                && |r.transactions| == |app.transactions| + 1
                && r.transactions[..|app.transactions|] == app.transactions
                && r.transactions[|app.transactions|].applicationState == app.status
      ensures !puts.recordPut ==> r == app
    {
      r := app;
      if puts.recordPut {
        records := records[app.applicationNumber := app];
        var transactions: seq<TransactionMetadata> := [];
        for i := 0 to |app.transactions|
          invariant transactions == app.transactions[..i]
        {
          transactions := transactions + [app.transactions[i]];
        }
        var metadata := TransactionMetadataOf(ctx, now, app);
        transactions := transactions + [metadata];
        r := r.(transactions := transactions);
      }
      if puts.auditedPut {
        records := records[r.applicationNumber := r];
      }
    }

    /** Creates an application: refused for an empty number or an existing
        one; otherwise saved as applied, quoted by lenders 1 to 4, and saved
        again with the quotations received. */
    method CreateLoanApplication(applicationNumber: string, make: string, model: string, loanAmount: real,
                                 ssn: string, age: int, monthlyIncome: real, creditScore: int, tenure: int,
                                 ctx: TxContext, now: Instant, firstSave: PutOutcome, secondSave: PutOutcome)
      returns (r: Result<LoanApplication>)
      requires Valid()
      modifies this
      ensures Valid()
      ensures applicationNumber == "" ==> r == Failure(InvalidApplication) && records == old(records)
      ensures applicationNumber != "" && applicationNumber in old(records) ==>
                r == Failure(ApplicationAlreadyExists) && records == old(records)
      ensures applicationNumber != "" && applicationNumber !in old(records) ==>
                && r.Success?
                && var p := EvaluationParams(applicationNumber, loanAmount, ssn, age, monthlyIncome, creditScore, tenure);
                   var applied := NewApplication(applicationNumber, make, model, loanAmount, ssn, age,
                                                 monthlyIncome, creditScore);
                   var saved := Audited(applied, firstSave.recordPut, TransactionMetadataOf(ctx, now, applied));
                   var quoted := saved.(quotations := r.value.quotations, status := STATE_QUOTATIONS_RECEIVED);
                   && QuotesDrawn(r.value.quotations, p, now)
                   && r.value == Audited(quoted, secondSave.recordPut, TransactionMetadataOf(ctx, now, quoted))
                   && records == StoreAfterSave(StoreAfterSave(old(records), applied, firstSave,
                                                               TransactionMetadataOf(ctx, now, applied)),
                                                quoted, secondSave, TransactionMetadataOf(ctx, now, quoted))
      ensures r.Success? ==>
                && r.value.status == STATE_QUOTATIONS_RECEIVED && r.value.tenure == 0
                && |r.value.quotations| == 4
      ensures r.Success? && firstSave.recordPut && secondSave.recordPut ==>
                && |r.value.transactions| == 2
                && r.value.transactions[0].applicationState == STATE_APPLIED
                && r.value.transactions[1].applicationState == STATE_QUOTATIONS_RECEIVED
    {
      if applicationNumber == "" {
        return Failure(InvalidApplication);
      }
      if applicationNumber in records {
        return Failure(ApplicationAlreadyExists);
      }
      var applicationDetails := NewApplication(applicationNumber, make, model, loanAmount, ssn, age,
                                               monthlyIncome, creditScore);
      applicationDetails := SaveApplicationDetails(applicationDetails, ctx, now, firstSave);

      var p := EvaluationParams(applicationNumber, loanAmount, ssn, age, monthlyIncome, creditScore, tenure);
      var quotes := CollectQuotes(p, now);
      applicationDetails := applicationDetails.(quotations := quotes, status := STATE_QUOTATIONS_RECEIVED);
      applicationDetails := SaveApplicationDetails(applicationDetails, ctx, now, secondSave);
      r := Success(applicationDetails);
    }

    /** Confirms bid `biddingNumber` with `bidStatus`. A missing application
        is not reported: the zero record is confirmed and saved under the
        empty application number. */
    method ConfirmBid(applicationNumber: string, biddingNumber: int, bidStatus: int,
                      ctx: TxContext, now: Instant, puts: PutOutcome) returns (r: LoanApplication)
      requires Valid()
      modifies this
      ensures Valid()
      ensures var loaded := Load(old(records), applicationNumber);
              var decided := r.(transactions := loaded.transactions);
              && BidApplied(loaded, biddingNumber, bidStatus, decided)
              && r == Audited(decided, puts.recordPut, TransactionMetadataOf(ctx, now, decided))
              && records == StoreAfterSave(old(records), decided, puts, TransactionMetadataOf(ctx, now, decided))
      ensures r.status == bidStatus
      ensures applicationNumber !in old(records) ==> r.applicationNumber == "" && r.quotations == []
    {
      var applicationDetails := Load(records, applicationNumber);
      ghost var loaded := applicationDetails;
      applicationDetails := MarkWinningBid(applicationDetails, biddingNumber, bidStatus);
      assert applicationDetails.(transactions := loaded.transactions) == applicationDetails;
      r := SaveApplicationDetails(applicationDetails, ctx, now, puts);
    }

    /** Records the payment status of installment `installmentNumber` and
        reclassifies the application from its whole schedule. A missing
        application is not reported: the zero record is updated and saved
        under the empty application number. */
    method ChangePaymentStatus(applicationNumber: string, installmentNumber: int, repaymentStatus: int,
                               ctx: TxContext, now: Instant, puts: PutOutcome) returns (r: LoanApplication)
      requires Valid()
      modifies this
      ensures Valid()
      ensures var loaded := Load(old(records), applicationNumber);
              var paid := loaded.(repaymentSchedule := ScheduleAfterPayment(loaded.repaymentSchedule,
                                    installmentNumber, repaymentStatus, InstallmentMetadata(ctx, now)));
              var classified := paid.(status := DefaultStatus(paid.repaymentSchedule));
              && r == Audited(classified, puts.recordPut, TransactionMetadataOf(ctx, now, classified))
              && records == StoreAfterSave(old(records), classified, puts, TransactionMetadataOf(ctx, now, classified))
      ensures r.status == STATE_PERFORMING || r.status == STATE_NON_PERFORMING
    {
      var applicationDetails := Load(records, applicationNumber);
      var metadata := InstallmentMetadata(ctx, now);
      var schedule := MarkInstallment(applicationDetails.repaymentSchedule, installmentNumber, repaymentStatus, metadata);
      applicationDetails := applicationDetails.(repaymentSchedule := schedule);
      applicationDetails := CheckLoanDefaultStatus(applicationDetails);
      r := SaveApplicationDetails(applicationDetails, ctx, now, puts);
    }
  }
}
