/** The default monitor: an application with three or more missed
    installments is non-performing, any other is performing. */
module DefaultMonitor {
  import opened LendingTypes

  predicate IsMissed(d: PaymentDetail)
  {
    d.repaymentStatus == STATE_MISSED
  }

  /** Number of missed installments, counted front to back. */
  function MissedCount(s: seq<PaymentDetail>): nat
  {
    if s == [] then 0
    else MissedCount(s[..|s| - 1]) + (if IsMissed(s[|s| - 1]) then 1 else 0)
  }

  /** The classification the monitor assigns to a schedule. */
  function DefaultStatus(s: seq<PaymentDetail>): int
  {
    if MissedCount(s) >= 3 then STATE_NON_PERFORMING else STATE_PERFORMING
  }

  /** The counting loop; only `Status` changes, whatever it was before. */
  method CheckLoanDefaultStatus(app: LoanApplication) returns (r: LoanApplication)
    ensures r == app.(status := DefaultStatus(app.repaymentSchedule))
  {
    var s := app.repaymentSchedule;
    var countOfMissedPayments := 0;
    for i := 0 to |s|
      invariant countOfMissedPayments == MissedCount(s[..i])
    {
      assert s[..i + 1][..i] == s[..i];
      if s[i].repaymentStatus == STATE_MISSED {
        countOfMissedPayments := countOfMissedPayments + 1;
      }
    }
    assert s[..|s|] == s;
    if countOfMissedPayments >= 3 {
      r := app.(status := STATE_NON_PERFORMING);
    } else {
      r := app.(status := STATE_PERFORMING);
    }
  }

  /** Counting over a longer prefix never loses a miss, and passing a missed
      entry gains one. */
  lemma {:induction false} MissedCountGrows(s: seq<PaymentDetail>, a: int, b: int)
    requires 0 <= a < b <= |s|
    ensures MissedCount(s[..a]) + (if IsMissed(s[a]) then 1 else 0) <= MissedCount(s[..b])
  {
    assert s[..b][..b - 1] == s[..b - 1];
    if b - 1 > a {
      MissedCountGrows(s, a, b - 1);
    } else {
      assert s[..b - 1] == s[..a];
    }
  }

  /** A positive count has a last missed entry, before which one fewer is counted. */
  lemma {:induction false} LastMissed(s: seq<PaymentDetail>) returns (k: int)
    requires MissedCount(s) > 0
    ensures 0 <= k < |s| && IsMissed(s[k]) && MissedCount(s[..k]) == MissedCount(s) - 1
  {
    var p := s[..|s| - 1];
    if IsMissed(s[|s| - 1]) {
      k := |s| - 1;
    } else {
      k := LastMissed(p);
      assert p[..k] == s[..k];
    }
  }

  /** At least three misses are three distinct missed entries. */
  lemma ThreeMissedEntries(s: seq<PaymentDetail>) returns (i: int, j: int, k: int)
    requires MissedCount(s) >= 3
    ensures 0 <= i < j < k < |s| && IsMissed(s[i]) && IsMissed(s[j]) && IsMissed(s[k])
  {
    k := LastMissed(s);
    var sk := s[..k];
    j := LastMissed(sk);
    var sj := sk[..j];
    i := LastMissed(sj);
    assert sj[i] == s[i] && sk[j] == s[j];
  }

  /** Three distinct missed entries are counted. */
  lemma ThreeMissedCounted(s: seq<PaymentDetail>, i: int, j: int, k: int)
    requires 0 <= i < j < k < |s| && IsMissed(s[i]) && IsMissed(s[j]) && IsMissed(s[k])
    ensures MissedCount(s) >= 3
  {
    MissedCountGrows(s, i, j);
    MissedCountGrows(s, j, k);
    MissedCountGrows(s, k, |s|);
    assert s[..|s|] == s;
  }

  /** Three missed entries at distinct positions, in any order, are counted. */
  lemma ThreeDistinctMissedCounted(s: seq<PaymentDetail>, i: int, j: int, k: int)
    requires 0 <= i < |s| && 0 <= j < |s| && 0 <= k < |s| && i != j && j != k && i != k
    requires IsMissed(s[i]) && IsMissed(s[j]) && IsMissed(s[k])
    ensures DefaultStatus(s) == STATE_NON_PERFORMING
  {
    if i < j < k { ThreeMissedCounted(s, i, j, k); }
    else if i < k < j { ThreeMissedCounted(s, i, k, j); }
    else if j < i < k { ThreeMissedCounted(s, j, i, k); }
    else if j < k < i { ThreeMissedCounted(s, j, k, i); }
    else if k < i < j { ThreeMissedCounted(s, k, i, j); }
    else { ThreeMissedCounted(s, k, j, i); }
  }

  /** The monitor reports non-performing exactly when three distinct
      installments are missed, wherever they sit in the schedule; otherwise
      it reports performing. */
  lemma NonPerformingIffThreeMissed(s: seq<PaymentDetail>)
    ensures DefaultStatus(s) == STATE_NON_PERFORMING || DefaultStatus(s) == STATE_PERFORMING
    ensures DefaultStatus(s) == STATE_NON_PERFORMING <==>
              exists i, j, k :: 0 <= i < j < k < |s| && IsMissed(s[i]) && IsMissed(s[j]) && IsMissed(s[k])
  {
    if MissedCount(s) >= 3 {
      var i, j, k := ThreeMissedEntries(s);
    }
    if exists i, j, k :: 0 <= i < j < k < |s| && IsMissed(s[i]) && IsMissed(s[j]) && IsMissed(s[k]) {
      var i, j, k :| 0 <= i < j < k < |s| && IsMissed(s[i]) && IsMissed(s[j]) && IsMissed(s[k]);
      ThreeMissedCounted(s, i, j, k);
    }
  }
}
