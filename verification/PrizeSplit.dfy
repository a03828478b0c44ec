/** Splitting a prize, counted in cents, over the winners of a session. */
module PrizeSplit {
  import opened Common

  datatype SplitError = NoWinners

  /** The share of the winner at position `index`: the floor, plus one of the left-over cents. */
  function Share(total: nat, winners: nat, index: nat): nat
    requires winners > 0
  {
    total / winners + if index < total % winners then 1 else 0
  }

  function Shares(total: nat, winners: nat): seq<int>
    requires winners > 0
  {
    seq(winners, i requires 0 <= i < winners => Share(total, winners, i))
  }

  /** What a caller needs of a split: nothing is lost and nobody is more than a cent ahead. */
  ghost predicate FairSplit(total: nat, shares: seq<int>) {
    && Sum(shares) == total
    && (forall i, j | 0 <= i <= j < |shares| :: shares[j] <= shares[i] <= shares[j] + 1)
  }

  /** A fair split with `k` leading high shares of `low + 1` and the rest `low`. */
  lemma {:induction false} StepSum(s: seq<int>, low: int, k: nat)
    requires k <= |s|
    requires forall i | 0 <= i < |s| :: s[i] == low + if i < k then 1 else 0
    ensures Sum(s) == |s| * low + k
  {
    if s != [] {
      var n := |s| - 1;
      var k' := if k <= n then k else n;
      StepSum(s[..n], low, k');
      assert |s| * low == n * low + low;
    }
  }

  /** The first `k` shares together hold k floors and min(k, remainder) extra cents. */
  lemma PrefixSum(total: nat, winners: nat, k: nat)
    requires 0 < winners && k <= winners
    ensures Sum(Shares(total, winners)[..k])
         == k * (total / winners) + if k < total % winners then k else total % winners
  {
    StepSum(Shares(total, winners)[..k], total / winners, if k < total % winners then k else total % winners);
  }

  lemma NextShareSum(total: nat, winners: nat, k: nat)
    requires 0 < k <= winners
    ensures Sum(Shares(total, winners)[..k]) == Sum(Shares(total, winners)[..k - 1]) + Share(total, winners, k - 1)
  {
    var s := Shares(total, winners);
    assert s[..k] == s[..k - 1] + [s[k - 1]];
    SumAppend(s[..k - 1], s[k - 1]);
  }

  lemma {:induction false} SharesAreFair(total: nat, winners: nat)
    requires winners > 0
    ensures FairSplit(total, Shares(total, winners))
  {
    var s := Shares(total, winners);
    PrefixSum(total, winners, winners);
    assert s[..winners] == s;
    assert total == winners * (total / winners) + total % winners;
  }

  /** The position of the first low share of a fair split. */
  lemma {:induction false} StepPoint(s: seq<int>, low: int) returns (k: nat)
    requires forall i | 0 <= i < |s| :: low <= s[i] <= low + 1
    requires forall i, j | 0 <= i <= j < |s| :: s[j] <= s[i]
    ensures k <= |s|
    ensures forall i | 0 <= i < |s| :: s[i] == low + if i < k then 1 else 0
  {
    k := 0;
    while k < |s| && s[k] == low + 1
      invariant k <= |s|
      invariant forall i | 0 <= i < k :: s[i] == low + 1
    {
      k := k + 1;
    }
  }

  /** Fairness leaves no freedom: the split is the only fair one. */
  lemma {:induction false} FairSplitIsUnique(total: nat, s: seq<int>)
    requires s != [] && FairSplit(total, s)
    ensures s == Shares(total, |s|)
  {
    var n := |s|;
    var low := s[n - 1];
    var k := StepPoint(s, low);
    StepSum(s, low, k);
    assert k < n;
    QuotientRemainder(total, n, low, k);
  }

  lemma QuotientRemainder(total: nat, n: nat, q: int, r: nat)
    requires r < n && total == n * q + r
    ensures q == total / n && r == total % n
  {
    var d := q - total / n;
    assert n * d == total % n - r by {
      assert total == n * (total / n) + total % n;
      assert n * d == n * q - n * (total / n);
    }
    ProductBound(n, d);
  }

  lemma {:induction false} ProductBound(n: nat, d: int)
    ensures d > 0 ==> n * d >= n
    ensures d < 0 ==> n * d + n <= 0
    decreases if d < 0 then -d else d
  {
    if d > 1 {
      ProductBound(n, d - 1);
      assert n * d == n * (d - 1) + n;
    } else if d < -1 {
      ProductBound(n, d + 1);
      assert n * d == n * (d + 1) - n;
    }
  }

  /** The index loop of the source, with a thrown error as a failure. */
  method SplitPrizeAmount(total: nat, winnerCount: int) returns (r: Result<seq<int>, SplitError>)
    ensures r.Failure? <==> winnerCount <= 0
    ensures r.Success? ==> |r.value| == winnerCount && FairSplit(total, r.value)
    ensures r.Success? ==> r.value == Shares(total, winnerCount)
  {
    if winnerCount <= 0 {
      return Failure(NoWinners);
    }
    var baseShare := total / winnerCount;
    var remainder := total - baseShare * winnerCount;
    var shares := [];
    var index := 0;
    while index < winnerCount
      invariant 0 <= index <= winnerCount
      invariant shares == Shares(total, winnerCount)[..index]
    {
      var extraCent := if index < remainder then 1 else 0;
      shares := shares + [baseShare + extraCent];
      index := index + 1;
    }
    SharesAreFair(total, winnerCount);
    assert shares == Shares(total, winnerCount);
    return Success(shares);
  }

  /** Every share is payable (at least one cent) exactly when the prize reaches one cent each. */
  lemma {:induction false} SharesPositiveIff(total: nat, winners: nat)
    requires winners > 0
    ensures (forall i | 0 <= i < winners :: Share(total, winners, i) > 0) <==> total >= winners
  {
    if total >= winners {
      assert total == winners * (total / winners) + total % winners;
      ProductBound(winners, total / winners);
    } else {
      QuotientRemainder(total, winners, 0, total);
      assert Share(total, winners, winners - 1) == 0;
    }
  }
}
