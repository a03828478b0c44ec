/** Which called ball a claim is judged on. Calls are listed by order. */
module WinningBalls {
  import opened Common
  import opened Games

  function LatestCalledNumber(calls: seq<Call>): Option<int> {
    if calls == [] then None else Some(calls[|calls| - 1].ball.number)
  }

  /** The first call of a number. */
  function FindBall(calls: seq<Call>, number: int): Option<Ball> {
    if calls == [] then None
    else if calls[0].ball.number == number then Some(calls[0].ball)
    else FindBall(calls[1..], number)
  }

  function ResolveWinningBallRecord(calls: seq<Call>, number: Option<int>): Option<Ball> {
    if number.None? then None else FindBall(calls, number.value)
  }

  /** `resolveWinningBallFromCalledNumbersSnapshot`. */
  function SnapshotBall(calls: seq<Call>): Option<Ball> {
    ResolveWinningBallRecord(calls, LatestCalledNumber(calls))
  }

  function FilterCalledNumbersAtClaimTime(calls: seq<Call>, checkedAt: int): seq<Call> {
    if calls == [] then []
    else
      FilterCalledNumbersAtClaimTime(calls[..|calls| - 1], checkedAt)
      + if calls[|calls| - 1].createdAt <= checkedAt then [calls[|calls| - 1]] else []
  }

  /** The fallback chain of the results page: session ball, stored ball, re-evaluated ball. */
  function ResultBall(calls: seq<Call>, stored: Option<Ball>, checkedAt: Option<int>): Option<Ball> {
    var winnerCalls := if checkedAt.Some? then FilterCalledNumbersAtClaimTime(calls, checkedAt.value) else calls;
    var sessionBall := SnapshotBall(calls);
    if sessionBall.Some? then sessionBall
    else if stored.Some? then stored
    else ResolveWinningBallRecord(winnerCalls, LatestCalledNumber(winnerCalls))
  }

  ghost predicate DistinctNumbers(calls: seq<Call>) {
    forall i, j | 0 <= i < j < |calls| :: calls[i].ball.number != calls[j].ball.number
  }

  /** With distinct numbers, looking the latest number up finds the last call itself. */
  lemma {:induction false} SnapshotIsLastCall(calls: seq<Call>)
    requires DistinctNumbers(calls)
    ensures SnapshotBall(calls) == if calls == [] then None else Some(calls[|calls| - 1].ball)
  {
    if calls != [] {
      FindLast(calls, 0);
    }
  }

  lemma {:induction false} FindLast(calls: seq<Call>, from: nat)
    requires DistinctNumbers(calls) && from < |calls|
    ensures FindBall(calls[from..], calls[|calls| - 1].ball.number) == Some(calls[|calls| - 1].ball)
    decreases |calls| - from
  {
    if from < |calls| - 1 {
      FindLast(calls, from + 1);
      assert calls[from..][1..] == calls[from + 1..];
    }
  }

  lemma {:induction false} FilterKeepsAll(calls: seq<Call>, checkedAt: int)
    requires forall i | 0 <= i < |calls| :: calls[i].createdAt <= checkedAt
    ensures FilterCalledNumbersAtClaimTime(calls, checkedAt) == calls
  {
    if calls != [] {
      FilterKeepsAll(calls[..|calls| - 1], checkedAt);
    }
  }
}
