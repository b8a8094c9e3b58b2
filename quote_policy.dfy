/** The lender quote policy. The four lender functions of the chaincode are one
    rule that differs only in the lender id and the interest-type label, so it
    is modelled once, parameterised by the lender id. The bidding number and
    the bid date, which the chaincode draws from `rand` and the clock, are
    parameters here; `DrawQuote` draws the number. */
module QuotePolicy {
  import opened LendingTypes

  const CREDIT_SCORE_REASON := "Not meeting credit score requirements"
  const AGE_REASON := "Not meeting age requirements"
  const SSN_REASON := "Invalid SSN"
  const INCOME_REASON := "Not meeting monthly income requirements"

  const BASE_RATE := 5.0

  /** Lenders 1 and 3 quote simple interest, lenders 2 and 4 floating. */
  function InterestTypeOf(lenderId: int): (t: string)
    requires 1 <= lenderId <= 4
    ensures t == (if lenderId % 2 == 1 then "simple" else "floating")
  {
    if lenderId == 1 || lenderId == 3 then "simple" else "floating"
  }

  /** An applicant passes every eligibility rule. A Go string's rune count is
      the length of the `seq<char>` that models it. */
  predicate Eligible(p: EvaluationParams)
  {
    p.creditScore >= 300 && p.age >= 18 && |p.ssn| == 7 && p.monthlyIncome >= 1000.0
  }

  function CreditScoreDelta(creditScore: int): (d: real)
    ensures d == 0.25 <==> 500 < creditScore < 700
    ensures d == 0.50 <==> 300 < creditScore < 500
    ensures d == 0.0 <==> creditScore <= 300 || creditScore == 500 || creditScore >= 700
  {
    if creditScore < 700 && creditScore > 500 then 0.25
    else if creditScore < 500 && creditScore > 300 then 0.50
    else 0.0
  }

  function AgeDelta(age: int): (d: real)
    ensures d == 0.25 <==> 30 < age < 50
    ensures d == 0.50 <==> age > 50
    ensures d == 0.0 <==> age <= 30 || age == 50
  {
    if age > 30 && age < 50 then 0.25
    else if age > 50 then 0.50
    else 0.0
  }

  function IncomeDelta(monthlyIncome: real): (d: real)
    ensures d == 0.50 <==> 1000.0 < monthlyIncome < 3000.0
    ensures d == 0.25 <==> monthlyIncome > 3000.0
    ensures d == 0.0 <==> monthlyIncome <= 1000.0 || monthlyIncome == 3000.0
  {
    if monthlyIncome > 1000.0 && monthlyIncome < 3000.0 then 0.50
    else if monthlyIncome > 3000.0 then 0.25
    else 0.0
  }

  /** The quoted rate: the base rate plus the three band deltas. */
  function InterestRate(p: EvaluationParams): (rate: real)
    ensures BASE_RATE <= rate <= 6.5
  {
    var delta := CreditScoreDelta(p.creditScore) + AgeDelta(p.age) + IncomeDelta(p.monthlyIncome);
    BASE_RATE + delta
  }

  /** The quote of lender `lenderId`: the first failing eligibility rule
      rejects, otherwise the lender bids the requested amount and tenure at
      `InterestRate(p)`. */
  function Quote(lenderId: int, p: EvaluationParams, biddingNumber: int, now: Instant): (q: BiddingDetails)
    requires 1 <= lenderId <= 4
    ensures q.applicationNumber == p.applicationNumber
    ensures q.applicationAcceptStatus == LENDER_ACCEPT_APPLICATION <==> Eligible(p)
    ensures q.applicationAcceptStatus == LENDER_REJECT_APPLICATION <==> !Eligible(p)
    // a rejection names the first rule that fails, in this order
    ensures p.creditScore < 300 ==> q.rejectionReason == CREDIT_SCORE_REASON
    ensures p.creditScore >= 300 && p.age < 18 ==> q.rejectionReason == AGE_REASON
    ensures p.creditScore >= 300 && p.age >= 18 && |p.ssn| != 7 ==> q.rejectionReason == SSN_REASON
    ensures p.creditScore >= 300 && p.age >= 18 && |p.ssn| == 7 && p.monthlyIncome < 1000.0
            ==> q.rejectionReason == INCOME_REASON
    // a rejection populates nothing else
    ensures !Eligible(p) ==>
              && q.biddingNumber == 0 && q.biddingDate == ZeroTime && q.lenderId == 0
              && q.sanctionedAmount == 0.0 && q.interestType == "" && q.interestRate == 0.0
              && q.tenure == 0 && !q.isWinningBid
    // an acceptance bids the requested terms
    ensures Eligible(p) ==>
              && q.biddingNumber == biddingNumber && q.biddingDate == now && q.lenderId == lenderId
              && q.sanctionedAmount == p.loanAmount && q.tenure == p.tenure
              && q.interestType == InterestTypeOf(lenderId) && q.rejectionReason == ""
              && !q.isWinningBid && q.interestRate == InterestRate(p)
              && BASE_RATE <= q.interestRate <= 6.5
  {
    var blank := BiddingDetails(p.applicationNumber, 0, ZeroTime, 0, 0.0, "", 0.0, 0,
                                LENDER_REJECT_APPLICATION, "", false);
    if p.creditScore < 300 then blank.(rejectionReason := CREDIT_SCORE_REASON)
    else if p.age < 18 then blank.(rejectionReason := AGE_REASON)
    else if |p.ssn| != 7 then blank.(rejectionReason := SSN_REASON)
    else if p.monthlyIncome < 1000.0 then blank.(rejectionReason := INCOME_REASON)
    else blank.(applicationAcceptStatus := LENDER_ACCEPT_APPLICATION,
                biddingNumber := biddingNumber,
                biddingDate := now,
                lenderId := lenderId,
                sanctionedAmount := p.loanAmount,
                tenure := p.tenure,
                interestType := InterestTypeOf(lenderId),
                interestRate := InterestRate(p),
                isWinningBid := false)
  }

  /** A quotation that lender `lenderId` can have produced: `Quote` applied to
      some bidding number from the random range. */
  predicate QuoteDrawn(q: BiddingDetails, lenderId: int, p: EvaluationParams, now: Instant)
    requires 1 <= lenderId <= 4
  {
    0 <= q.biddingNumber < IDENTIFIER_RANGE && q == Quote(lenderId, p, q.biddingNumber, now)
  }

  /** `rand.Intn(100000)`: any number of the range. */
  method GenerateBiddingNumber() returns (n: int)
    ensures 0 <= n < IDENTIFIER_RANGE
  {
    n :| 0 <= n < IDENTIFIER_RANGE;
  }

  /** One lender's quote; a bidding number is drawn only for an acceptance. */
  method DrawQuote(lenderId: int, p: EvaluationParams, now: Instant) returns (q: BiddingDetails)
    requires 1 <= lenderId <= 4
    ensures QuoteDrawn(q, lenderId, p, now)
  {
    var biddingNumber := 0;
    if Eligible(p) {
      biddingNumber := GenerateBiddingNumber();
    }
    q := Quote(lenderId, p, biddingNumber, now);
  }

  /** All four lenders agree on everything but the lender id, the interest
      type, the bidding number and the date; in particular on the rate. */
  lemma LendersDifferOnlyInLabels(l1: int, l2: int, p: EvaluationParams, b1: int, b2: int, n1: Instant, n2: Instant)
    requires 1 <= l1 <= 4 && 1 <= l2 <= 4
    ensures Quote(l1, p, b1, n1).interestRate == Quote(l2, p, b2, n2).interestRate
    ensures !Eligible(p) ==> Quote(l1, p, b1, n1) == Quote(l2, p, b2, n2)
    ensures Eligible(p) ==>
              Quote(l1, p, b1, n1).(lenderId := l2, interestType := InterestTypeOf(l2),
                                    biddingNumber := b2, biddingDate := n2)
              == Quote(l2, p, b2, n2)
  {
  }

  /** The band edges 300, 500, 700, 30, 50, 1000 and 3000 add nothing. */
  lemma BandEdgesAddNothing(p: EvaluationParams)
    requires p.creditScore == 300 || p.creditScore == 500 || p.creditScore >= 700
    requires p.age == 30 || p.age == 50
    requires p.monthlyIncome == 1000.0 || p.monthlyIncome == 3000.0
    ensures InterestRate(p) == BASE_RATE
  {
  }

  /** Exactly 300, 18 and 1000 pass the eligibility rules. */
  lemma LowestEligibleApplicant(lenderId: int, p: EvaluationParams, b: int, now: Instant)
    requires 1 <= lenderId <= 4
    requires p.creditScore == 300 && p.age == 18 && |p.ssn| == 7 && p.monthlyIncome == 1000.0
    ensures Quote(lenderId, p, b, now).applicationAcceptStatus == LENDER_ACCEPT_APPLICATION
    ensures Quote(lenderId, p, b, now).interestRate == BASE_RATE
  {
  }

  function QuarterStep(k: int): real
  {
    BASE_RATE + 0.25 * (k as real)
  }

  /** Every rate is 5.0 plus a whole number of quarter points, from 0 to 6
      (so the chaincode's float32 arithmetic is exact on it). */
  lemma RateIsQuarterStep(p: EvaluationParams)
    ensures exists k :: 0 <= k <= 6 && InterestRate(p) == QuarterStep(k)
  {
    var c := if CreditScoreDelta(p.creditScore) == 0.50 then 2
             else if CreditScoreDelta(p.creditScore) == 0.25 then 1 else 0;
    var a := if AgeDelta(p.age) == 0.50 then 2 else if AgeDelta(p.age) == 0.25 then 1 else 0;
    var m := if IncomeDelta(p.monthlyIncome) == 0.50 then 2
             else if IncomeDelta(p.monthlyIncome) == 0.25 then 1 else 0;
    assert InterestRate(p) == QuarterStep(c + a + m);
  }

  /** An applicant with credit score 650, age 35 and income 2500 is quoted
      5.00 + 0.25 + 0.25 + 0.50 = 6.00 by every lender. */
  lemma TypicalApplicantRate(lenderId: int, p: EvaluationParams, b: int, now: Instant)
    requires 1 <= lenderId <= 4
    requires p.creditScore == 650 && p.age == 35 && |p.ssn| == 7 && p.monthlyIncome == 2500.0
    ensures Quote(lenderId, p, b, now).interestRate == 6.0
  {
  }
}
