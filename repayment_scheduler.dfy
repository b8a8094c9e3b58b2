/** The repayment schedule generator: `tenure * 12` flat installments, each
    with the same principal and the interest on that principal at the
    quoted rate. */
module RepaymentScheduler {
  import opened LendingTypes

  /** Installment `i + 1` of an `n`-installment schedule for quotation `q`. */
  function InstallmentOf(q: BiddingDetails, n: int, i: int): PaymentDetail
    requires n > 0
  {
    var principal := q.sanctionedAmount / (n as real);
    var interest := (principal * q.interestRate) / 100.0;
    PaymentDetail(i + 1, principal, interest, principal + interest, STATE_DEMANDED, "", ZeroMetadata)
  }

  /** `Tenure * 12` in Go's 64-bit `int`: a tenure beyond 768614336404564650
      in magnitude wraps around. */
  function InstallmentCount(q: BiddingDetails): int
  {
    WrapInt64(q.tenure * 12)
  }

  /** The schedule for quotation `q`; empty when the tenure gives no installment. */
  function RepaymentSchedule(q: BiddingDetails): (s: seq<PaymentDetail>)
    ensures |s| == if InstallmentCount(q) > 0 then InstallmentCount(q) else 0
    ensures forall i :: 0 <= i < |s| ==>
              && s[i].installmentNumber == i + 1
              && s[i].repaymentStatus == STATE_DEMANDED
              && s[i].principalAmount * (|s| as real) == q.sanctionedAmount
              && s[i].interestAmount == s[i].principalAmount * q.interestRate / 100.0
              && s[i].totalEmi == s[i].principalAmount + s[i].interestAmount
  {
    var n := InstallmentCount(q);
    if n <= 0 then [] else seq(n, i requires 0 <= i < n => InstallmentOf(q, n, i))
  }

  /** The schedule depends only on the amount, the rate and the tenure. */
  lemma ScheduleIgnoresOtherTerms(q: BiddingDetails, q': BiddingDetails)
    requires q.sanctionedAmount == q'.sanctionedAmount
    requires q.interestRate == q'.interestRate && q.tenure == q'.tenure
    ensures RepaymentSchedule(q) == RepaymentSchedule(q')
  {
    var s, s' := RepaymentSchedule(q), RepaymentSchedule(q');
    assert |s| == |s'|;
    forall i | 0 <= i < |s| ensures s[i] == s'[i] {
      assert s[i] == InstallmentOf(q, InstallmentCount(q), i);
    }
  }

  /** The loop of the generator: one installment appended per iteration. */
  method GenerateRepaymentSchedule(q: BiddingDetails) returns (s: seq<PaymentDetail>)
    ensures s == RepaymentSchedule(q)
  {
    var n := WrapInt64(q.tenure * 12);
    s := [];
    var i := 0;
    while i < n
      invariant n > 0 ==> 0 <= i <= n
      invariant n <= 0 ==> i == 0
      invariant |s| == i
      invariant forall j :: 0 <= j < i ==> s[j] == InstallmentOf(q, n, j)
    {
      var principal := q.sanctionedAmount / (n as real);
      var interest := (principal * q.interestRate) / 100.0;
      var installment := PaymentDetail(i + 1, principal, interest, principal + interest,
                                       STATE_DEMANDED, "", ZeroMetadata);
      s := s + [installment];
      i := i + 1;
    }
  }

  /** Below the wrap-around, a tenure of `t` years gives `12 * t` installments. */
  lemma OrdinaryTenureCount(q: BiddingDetails)
    requires 0 < q.tenure <= 768614336404564650
    ensures |RepaymentSchedule(q)| == 12 * q.tenure
  {
  }

  /** The 64-bit product wraps: a tenure of 1537228672809129302 years gives 8
      installments, and one of 768614336404564651 years (a negative product)
      gives none. */
  lemma WrappedTenureCount(q: BiddingDetails, q': BiddingDetails)
    requires q.tenure == 1537228672809129302 && q'.tenure == 768614336404564651
    ensures |RepaymentSchedule(q)| == 8
    ensures RepaymentSchedule(q') == []
  {
    assert q.tenure * 12 == INT64_MODULUS + 8;
    assert q'.tenure * 12 == INT64_MODULUS / 2 + 4;
  }

  function PrincipalTotal(s: seq<PaymentDetail>): real
  {
    if s == [] then 0.0 else s[0].principalAmount + PrincipalTotal(s[1..])
  }

  lemma {:induction false} UniformPrincipalTotal(s: seq<PaymentDetail>, principal: real)
    requires forall i :: 0 <= i < |s| ==> s[i].principalAmount == principal
    ensures PrincipalTotal(s) == (|s| as real) * principal
  {
    if s != [] {
      UniformPrincipalTotal(s[1..], principal);
    }
  }

  /** The principals of a schedule add up to the sanctioned amount (over the
      reals; the chaincode's float64 division only approximates this). */
  lemma PrincipalsSumToSanctionedAmount(q: BiddingDetails)
    requires InstallmentCount(q) > 0
    ensures PrincipalTotal(RepaymentSchedule(q)) == q.sanctionedAmount
  {
    var s := RepaymentSchedule(q);
    var n := InstallmentCount(q);
    var principal := q.sanctionedAmount / (n as real);
    forall i | 0 <= i < |s| ensures s[i].principalAmount == principal {
      assert s[i] == InstallmentOf(q, n, i);
    }
    UniformPrincipalTotal(s, principal);
  }

  /** Installment numbers identify installments: no two entries share one. */
  lemma InstallmentNumbersDistinct(q: BiddingDetails, i: int, j: int)
    requires 0 <= i < j < |RepaymentSchedule(q)|
    ensures RepaymentSchedule(q)[i].installmentNumber != RepaymentSchedule(q)[j].installmentNumber
  {
  }
}
