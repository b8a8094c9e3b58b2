/** Data model of the smart lending chaincode: the loan application record,
    the lender quotations, the repayment installments and the audit entries,
    with the status constants the engine uses. Go's float64/float32 amounts
    are modelled as `real`; every zero value the Go code relies on is written
    out as a constant. */
module LendingTypes {

  // Status of a loan application
  const STATE_APPLIED := 0
  const STATE_QUOTATIONS_RECEIVED := 1
  const STATE_BID_ACCEPTED := 2
  const STATE_BID_REJECTED := 3
  const STATE_PERFORMING := 4
  const STATE_NON_PERFORMING := 5

  // A lender's decision on an application
  const LENDER_ACCEPT_APPLICATION := 1
  const LENDER_REJECT_APPLICATION := 0

  // Status of one installment
  const STATE_NOT_DEMANDED := 0
  const STATE_DEMANDED := 1
  const STATE_RECOVERED := 2
  const STATE_MISSED := 3

  /** Exclusive upper bound of the random bidding and account numbers. */
  const IDENTIFIER_RANGE := 100000

  // Go's 64-bit `int`
  const INT64_MODULUS := 0x1_0000_0000_0000_0000
  const INT64_MIN := -0x8000_0000_0000_0000
  const INT64_MAX := 0x7FFF_FFFF_FFFF_FFFF

  /** Two's-complement wrap-around of an `int` product into 64 bits. */
  function WrapInt64(x: int): (r: int)
    ensures INT64_MIN <= r <= INT64_MAX
    ensures (x - r) % INT64_MODULUS == 0
    ensures INT64_MIN <= x <= INT64_MAX ==> r == x
  {
    var m := x % INT64_MODULUS;
    if m > INT64_MAX then m - INT64_MODULUS else m
  }

  /** A reading of the clock; `ZeroTime` is the zero `time.Time`. */
  datatype Instant = ZeroTime | Reading(stamp: int)

  /** What the platform tells about the current transaction: its id, its
      timestamp already rendered as text (empty when it is unavailable) and
      the caller's opaque metadata. */
  datatype TxContext = TxContext(transactionId: string, transactionTimestamp: string, callerMetadata: seq<bv8>)

  datatype TransactionMetadata = TransactionMetadata(
    applicationState: int,
    transactionId: string,
    transactionTimestamp: string,
    transactionDate: Instant,
    callerMetadata: seq<bv8>)

  const ZeroMetadata := TransactionMetadata(0, "", "", ZeroTime, [])

  datatype PaymentDetail = PaymentDetail(
    installmentNumber: int,
    principalAmount: real,
    interestAmount: real,
    totalEmi: real,
    repaymentStatus: int,
    repaymentDate: string,
    metadata: TransactionMetadata)

  datatype BiddingDetails = BiddingDetails(
    applicationNumber: string,
    biddingNumber: int,
    biddingDate: Instant,
    lenderId: int,
    sanctionedAmount: real,
    interestType: string,
    interestRate: real,
    tenure: int,
    applicationAcceptStatus: int,
    rejectionReason: string,
    isWinningBid: bool)

  /** The underwriting view of an application handed to every lender. */
  datatype EvaluationParams = EvaluationParams(
    applicationNumber: string,
    loanAmount: real,
    ssn: string,
    age: int,
    monthlyIncome: real,
    creditScore: int,
    tenure: int)

  datatype LoanApplication = LoanApplication(
    applicationNumber: string,
    accountNumber: int,
    make: string,
    model: string,
    loanAmount: real,
    ssn: string,
    age: int,
    monthlyIncome: real,
    creditScore: int,
    status: int,
    tenure: int,
    transactions: seq<TransactionMetadata>,
    quotations: seq<BiddingDetails>,
    repaymentSchedule: seq<PaymentDetail>)

  /** The zero `LoanApplication`: what a failed decode of a stored record leaves behind. */
  const ZeroApplication := LoanApplication("", 0, "", "", 0.0, "", 0, 0.0, 0, 0, 0, [], [], [])

  datatype LendingError = InvalidApplication | ApplicationAlreadyExists | ApplicationNotFound

  datatype Result<T> = Success(value: T) | Failure(error: LendingError)
}
