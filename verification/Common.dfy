/** Shared value types and sums over sequences. */
module Common {

  datatype Option<+T> = None | Some(value: T)

  datatype Result<+T, +E> = Success(value: T) | Failure(error: E)

  function Sum(s: seq<int>): int {
    if s == [] then 0 else Sum(s[..|s| - 1]) + s[|s| - 1]
  }

  lemma {:induction false} SumAppend(s: seq<int>, x: int)
    ensures Sum(s + [x]) == Sum(s) + x
  {
    assert (s + [x])[..|s|] == s;
  }

  /** Changing one term of a sum changes the sum by the difference. */
  lemma {:induction false} SumUpdate(s: seq<int>, i: nat, x: int)
    requires i < |s|
    ensures Sum(s[i := x]) == Sum(s) - s[i] + x
  {
    var last := |s| - 1;
    if i == last {
      assert s[i := x][..last] == s[..last];
    } else {
      SumUpdate(s[..last], i, x);
      assert s[i := x][..last] == s[..last][i := x];
    }
  }

  lemma Distribute(a: int, b: int, c: int)
    ensures a * (b + c) == a * b + a * c
  {
  }

  predicate IsSpace(c: char) {
    c in " \t\n\r"
  }

  function Trim(s: string): string {
    if s == "" then s
    else if IsSpace(s[0]) then Trim(s[1..])
    else if IsSpace(s[|s| - 1]) then Trim(s[..|s| - 1])
    else s
  }
}
