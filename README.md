# Smart lending chaincode: a verified Dafny model

This project models the loan-application engine of a Hyperledger Fabric
chaincode (`chaincode_example06/SmartLendingChainCode.go`). The engine keeps
a record store keyed by application number. It has four operations:

- create an application, and collect one quotation from each of four lenders;
- confirm a bid, which flags the winning quotation, assigns an account number
  and generates the repayment schedule;
- change the payment status of an installment, and reclassify the loan as
  performing or non-performing;
- read an application back.

Every write goes through `SaveApplicationDetails`, which appends an audit
entry holding the application's current status.

The modules follow the components of the engine:

- `LendingTypes` (`lending_types.dfy`): the records, the status constants and
  the zero values the Go code relies on.
- `QuotePolicy` (`quote_policy.dfy`): the four lender functions, modelled as
  one pure rule parameterised by the lender id. It holds the eligibility
  rules, the additive rate table and the random bidding number.
- `RepaymentScheduler` (`repayment_scheduler.dfy`): the flat schedule of
  `Tenure*12` installments. A loop method is proved equal to a specification
  function, and its principals are proved to sum to the sanctioned amount.
- `DefaultMonitor` (`default_monitor.dfy`): the loop that counts missed
  installments, proved against a recursive count. The classification is
  proved to be non-performing exactly when three distinct installments are
  missed.
- `LifecycleEngine` (`lifecycle_engine.dfy`): the class `SmartLending`
  holding `records: map<string, LoanApplication>`, the operations on it, and
  the two loops of `ConfirmBid` and `ChangePaymentStatus` as methods proved
  against specification functions.
- `LendingScenario` (`lending_scenario.dfy`): a client that uses only the
  contracts. It creates `APP-1` with credit score 650, age 35 and income
  2500, and shows the rate is 6.00. It accepts the first bid and shows 60
  installments. It marks three installments missed and shows the loan turns
  non-performing.

Inputs, collaborators and nondeterminism:

- Inputs arrive already parsed: amounts are `real`, counts are `int`.
- `rand.Intn(100000)` is a nondeterministic choice in `[0, 100000)`.
- The transaction id, the timestamp text and the caller metadata come in as
  one `TxContext` value.
- Every `time.Now()` reading of one operation is one `now: Instant`
  parameter.
- Whether each `PutState` call succeeds is a `PutOutcome` parameter. Its
  first flag is the put of the incoming record; its second is the put of the
  audited record.
- A key that `GetState` does not find decodes to the zero record
  (`Load`).

The model keeps these behaviours of the code as written:

- `ConfirmBid` and `ChangePaymentStatus` never report a missing application.
  They go on with the zero record, whose application number is "", and save
  it under "".
- `ConfirmBid` writes any integer into `Status`, so the status can move
  backwards.
- Every quotation whose bidding number matches is flagged winning, not just
  one. The account number and the schedule come from the last match.
- `CreateLoanApplication` never copies the tenure into the record's `Tenure`
  field.
- A paid installment's `RepaymentDate` is never set. Its metadata keeps
  application state 0.
- The default threshold is three or more missed installments. A comment in
  the code says "more than 3".
- The installment count `Tenure * 12` is computed in Go's 64-bit `int`
  (a 64-bit platform is assumed). A tenure beyond 768614336404564650 in
  magnitude wraps around, so an absurd tenure can give a short schedule or
  none.

## Model

| member | source | states |
|---|---|---|
| QuotePolicy.Quote | chaincode_example06/SmartLendingChainCode.go:343-402 | A lender accepts exactly when credit score >= 300, age >= 18, the SSN has 7 runes and income >= 1000. A rejection names the first failing rule in that order, keeps the application number and leaves every other field zero or false. An acceptance has status 1, the lender's id, the requested amount and tenure, the lender's interest type, the given bidding number and date, no winning flag, and the rate `InterestRate(p)`, which lies in [5.0, 6.5]. |
| QuotePolicy.InterestTypeOf | chaincode_example06/SmartLendingChainCode.go:343-585 | Lenders 1 and 3 quote "simple" interest; lenders 2 and 4 quote "floating". |
| QuotePolicy.CreditScoreDelta | chaincode_example06/SmartLendingChainCode.go:378-382 | The credit-score delta is +0.25 exactly on (500, 700) and +0.50 exactly on (300, 500). It is 0 at 300, 500 and from 700 up. |
| QuotePolicy.AgeDelta | chaincode_example06/SmartLendingChainCode.go:384-388 | The age delta is +0.25 exactly on (30, 50) and +0.50 exactly above 50. It is 0 up to 30 and at 50. |
| QuotePolicy.IncomeDelta | chaincode_example06/SmartLendingChainCode.go:390-394 | The income delta is +0.50 exactly on (1000, 3000) and +0.25 exactly above 3000. It is 0 up to 1000 and at 3000. |
| QuotePolicy.InterestRate | chaincode_example06/SmartLendingChainCode.go:375-397 | The rate is the base 5.0 plus the three deltas, and lies in [5.0, 6.5]. |
| QuotePolicy.RateIsQuarterStep | chaincode_example06/SmartLendingChainCode.go:376-396 | Every rate is 5.0 plus k quarter points for some k in 0..6, so the float32 sum is exact. |
| QuotePolicy.BandEdgesAddNothing | chaincode_example06/SmartLendingChainCode.go:378-394 | At the band edges the rate stays at the base. These are credit 300, 500 or 700 and above, age 30 or 50, and income 1000 or 3000. |
| QuotePolicy.LowestEligibleApplicant | chaincode_example06/SmartLendingChainCode.go:351-396 | Credit 300, age 18, a 7-rune SSN and income 1000 are accepted, at exactly the base rate. |
| QuotePolicy.TypicalApplicantRate | chaincode_example06/SmartLendingChainCode.go:375-397 | Credit 650, age 35 and income 2500 are quoted 6.00 by every lender. |
| QuotePolicy.LendersDifferOnlyInLabels | chaincode_example06/SmartLendingChainCode.go:343-585 | All four lenders quote the same rate. Rejections are identical. Acceptances differ only in lender id, interest type, bidding number and date. |
| QuotePolicy.GenerateBiddingNumber | chaincode_example06/SmartLendingChainCode.go:587-594 | A bidding number lies in [0, 100000). |
| QuotePolicy.DrawQuote | chaincode_example06/SmartLendingChainCode.go:343-402 | A lender's quotation is `Quote` at some bidding number in [0, 100000); a number is drawn only for an acceptance. |
| RepaymentScheduler.RepaymentSchedule | chaincode_example06/SmartLendingChainCode.go:605-625 | The schedule has `Tenure*12` entries, that product taken in 64-bit `int`, or none when it is <= 0. Entry i has number i+1 and status DEMANDED. Its principal times the count is the sanctioned amount. Its interest is principal*rate/100, and its total is principal plus interest. |
| LendingTypes.WrapInt64 | chaincode_example06/SmartLendingChainCode.go:610 | A Go `int` product is reduced into [-2^63, 2^63) and stays congruent to the exact product modulo 2^64; a product already in range is kept. |
| RepaymentScheduler.OrdinaryTenureCount | chaincode_example06/SmartLendingChainCode.go:610-612 | A tenure of t years, 0 < t <= 768614336404564650, gives exactly 12t installments. |
| RepaymentScheduler.WrappedTenureCount | chaincode_example06/SmartLendingChainCode.go:610-612 | The 64-bit product wraps: a tenure of 1537228672809129302 gives 8 installments, and one of 768614336404564651 gives none. |
| RepaymentScheduler.GenerateRepaymentSchedule | chaincode_example06/SmartLendingChainCode.go:610-622 | The appending loop produces exactly `RepaymentSchedule(q)`. |
| RepaymentScheduler.PrincipalsSumToSanctionedAmount | chaincode_example06/SmartLendingChainCode.go:610-619 | Over the reals, the principals of a non-empty schedule sum to the sanctioned amount. |
| RepaymentScheduler.ScheduleIgnoresOtherTerms | chaincode_example06/SmartLendingChainCode.go:605-625 | The schedule depends only on the sanctioned amount, the rate and the tenure, so flagging the winner first changes nothing. |
| RepaymentScheduler.InstallmentNumbersDistinct | chaincode_example06/SmartLendingChainCode.go:616 | No two installments of a schedule share a number. |
| DefaultMonitor.CheckLoanDefaultStatus | chaincode_example06/SmartLendingChainCode.go:627-645 | The counting loop sets `Status` to 5 when at least 3 installments are MISSED and to 4 otherwise, whatever the prior status. No other field changes; an empty schedule gives 4. |
| DefaultMonitor.NonPerformingIffThreeMissed | chaincode_example06/SmartLendingChainCode.go:630-642 | The classification is always 4 or 5. It is 5 exactly when three distinct positions of the schedule are MISSED. |
| DefaultMonitor.ThreeMissedEntries | chaincode_example06/SmartLendingChainCode.go:630-638 | A count of at least 3 yields three distinct missed positions, in order. |
| DefaultMonitor.ThreeMissedCounted | chaincode_example06/SmartLendingChainCode.go:630-638 | Three distinct missed positions give a count of at least 3. |
| DefaultMonitor.ThreeDistinctMissedCounted | chaincode_example06/SmartLendingChainCode.go:630-642 | Three missed positions in any order make the application non-performing. |
| LifecycleEngine.CollectQuotes | chaincode_example06/SmartLendingChainCode.go:196-207 | There are exactly four quotations, from lenders 1 to 4 in that order, each `Quote` at a bidding number in range. |
| LifecycleEngine.QuotesDrawnTerms | chaincode_example06/SmartLendingChainCode.go:196-207 | The accepted quotation at position i has lender id i+1 and the requested tenure. A rejected one has lender id 0 and tenure 0. |
| LifecycleEngine.LastMatch | chaincode_example06/SmartLendingChainCode.go:232-238 | This is the index of the last quotation with the bidding number, or -1 when none has it. |
| LifecycleEngine.MarkWinningBid | chaincode_example06/SmartLendingChainCode.go:230-238 | `Status` always becomes `bidStatus`. Only when it is 2 is every matching quotation flagged winning, and the last match supplies a new account number in range and its schedule. Otherwise flags, account number and schedule stay as they were. Nothing else changes. |
| LifecycleEngine.SingleWinnerWhenNumbersDistinct | chaincode_example06/SmartLendingChainCode.go:232-238 | With distinct bidding numbers and no earlier winner, an accepted matching bid is the only winning quotation, and the schedule is its own. |
| LifecycleEngine.GenerateAccountNumber | chaincode_example06/SmartLendingChainCode.go:596-603 | An account number lies in [0, 100000). |
| LifecycleEngine.FirstInstallment | chaincode_example06/SmartLendingChainCode.go:262-276 | This is the index of the first installment with the number, or -1 when none has it. |
| LifecycleEngine.MarkInstallment | chaincode_example06/SmartLendingChainCode.go:262-276 | The loop with `break` changes only the first matching installment's status and metadata. With no match the schedule is unchanged. |
| LifecycleEngine.PaymentTouchesOnlyFirstMatch | chaincode_example06/SmartLendingChainCode.go:262-276 | Recording a payment keeps the length and order. It leaves every non-matching entry and every later duplicate untouched. It changes at most status and metadata, and changes nothing when no number matches. The first matching entry gets exactly the new status and metadata. |
| LifecycleEngine.PaymentKeepsInstallmentNumbers | chaincode_example06/SmartLendingChainCode.go:262-276 | Recording a payment keeps the position of every installment number. |
| LifecycleEngine.FreshScheduleLookup | chaincode_example06/SmartLendingChainCode.go:262-263 | In a generated schedule, installment n is found at position n-1. |
| LifecycleEngine.ThreeMissedPaymentsDefault | chaincode_example06/SmartLendingChainCode.go:262-279 | Marking three different existing installments MISSED makes the application non-performing. |
| LifecycleEngine.InstallmentMetadata | chaincode_example06/SmartLendingChainCode.go:265-272 | A paid installment's metadata carries the transaction id, timestamp, caller metadata and clock reading, and its `ApplicationState` stays 0. |
| LifecycleEngine.Load | chaincode_example06/SmartLendingChainCode.go:219-228 | A stored key yields its record. A missing key yields the zero record: number "", no quotations, no schedule, no audit entries. |
| LifecycleEngine.NewApplication | chaincode_example06/SmartLendingChainCode.go:188 | The new record copies the number, make, model, amount, SSN, age, income and credit score. It has status 0 (applied), account number 0, tenure 0 and no audit entries, quotations or schedule. |
| LifecycleEngine.TransactionMetadataOf | chaincode_example06/SmartLendingChainCode.go:328-341 | An audit entry records the application's current `Status` as its `ApplicationState`. |
| LifecycleEngine.SmartLending.constructor | chaincode_example06/SmartLendingChainCode.go:124-129 | An engine starts with an empty store. |
| LifecycleEngine.SmartLending.GetLoanApplicationDetails | chaincode_example06/SmartLendingChainCode.go:287-297 | A read succeeds exactly when the key is stored. It returns that record verbatim, whose application number is the key, and otherwise fails with not-found. |
| LifecycleEngine.SmartLending.SaveApplicationDetails | chaincode_example06/SmartLendingChainCode.go:303-326 | When the first put succeeds, exactly one entry whose state is the current `Status` is appended and earlier entries are kept; when it fails nothing is appended. The store ends with what the last successful put wrote. Every key still names its own record. |
| LifecycleEngine.SmartLending.CreateLoanApplication | chaincode_example06/SmartLendingChainCode.go:163-215 | Creation fails with invalid-application on an empty number, or already-exists on a stored one, and the store is then unchanged. Otherwise the record is saved at status 0, gets the four quotations, and is saved at status 1 with tenure 0. The store reflects both saves, and with successful puts the audit trail holds states 0 then 1. |
| LifecycleEngine.SmartLending.ConfirmBid | chaincode_example06/SmartLendingChainCode.go:217-247 | On the loaded record (the zero record when the key is missing), `MarkWinningBid`'s effect is applied and the result saved. The returned status is `bidStatus`. A missing key yields a record numbered "" with no quotations. |
| LifecycleEngine.SmartLending.ChangePaymentStatus | chaincode_example06/SmartLendingChainCode.go:249-285 | On the loaded record (the zero record when the key is missing), the first matching installment is updated and `Status` is recomputed by the default monitor over the whole schedule. The result is saved, and its status is 4 or 5 even when no installment matched. |

## Left out

- The `Init`, `Query` and `Invoke` dispatch by function name, and
  `main`/`shim.Start`. This is framework plumbing; the operations are modelled
  directly.
- JSON `Marshal`/`Unmarshal`. The store holds record values. A stored record
  that fails to decode is not modelled; only a missing key decodes to the
  zero record.
- `strconv` parsing. Inputs are typed, so the Go behaviour of a malformed
  number silently becoming 0 is not modelled.
- The error result of `GetState`. A read fails only for a missing key.
- `GetTxID`, `GetTxTimestamp`, `GetCallerMetadata` and `time.Now`. These are
  calls into the platform. They are parameters, and the readings of
  `time.Now` within one operation are taken to be equal.
- The internals of `math/rand`. Only the range of the drawn numbers is
  modelled, and no uniqueness of bidding numbers follows from it.
- NaN and infinite float64 inputs, which `strconv.ParseFloat` accepts. A
  NaN income passes the income rule, since no comparison with NaN is true,
  and adds no delta; a real cannot take that value.
- IEEE float32/float64 rounding. Amounts and rates are reals. The rates are
  exact in float32 (see `RateIsQuarterStep`), but the principal division is
  not exact in float64, so the principal sum holds over the reals only.
- Go's rune count of a byte string containing invalid UTF-8. SSNs are
  sequences of characters, so the rune count is their length.
- The logger and the unused participant constants.
- Concurrency and consensus. These belong to the platform; each operation is
  one sequential step on the store.
- CreateLoanApplication: it does not fix the four bidding numbers, only
  their range, because they are random.
- ConfirmBid: it does not fix the account number, only its range, because it
  is random.
