/** Decimal text of cartela numbers, and the number ranges behind a prefix search. */
module CartelaPrefix {
  import opened Common

  const MAX_CARTELA_DIGITS: nat := 10
  const MAX_SAFE_INTEGER: nat := 9007199254740991

  datatype Range = Range(min: nat, max: nat) {
    predicate Contains(n: nat) {
      min <= n <= max
    }
  }

  function Pow10(k: nat): (p: nat)
    ensures p > 0
  {
    if k == 0 then 1 else 10 * Pow10(k - 1)
  }

  predicate IsDigit(c: char) {
    '0' <= c <= '9'
  }

  /** `^\d+$` */
  predicate AllDigits(s: string) {
    s != "" && forall i | 0 <= i < |s| :: IsDigit(s[i])
  }

  function DigitValue(c: char): (v: nat)
    requires IsDigit(c)
    ensures v < 10
  {
    c as int - '0' as int
  }

  function Digit(v: nat): (c: char)
    requires v < 10
    ensures IsDigit(c) && DigitValue(c) == v
  {
    ('0' as int + v) as char
  }

  function Value(s: string): nat
    requires AllDigits(s)
  {
    if |s| == 1 then DigitValue(s[0]) else 10 * Value(s[..|s| - 1]) + DigitValue(s[|s| - 1])
  }

  /** The decimal text of a number, without leading zeros. */
  function Text(n: nat): (s: string)
    ensures AllDigits(s)
  {
    if n < 10 then [Digit(n)] else Text(n / 10) + [Digit(n % 10)]
  }

  lemma {:induction false} ValueOfText(n: nat)
    ensures Value(Text(n)) == n
  {
    if n >= 10 {
      ValueOfText(n / 10);
      assert Text(n)[..|Text(n)| - 1] == Text(n / 10);
    }
  }

  lemma {:induction false} TextOfValue(s: string)
    requires AllDigits(s) && s[0] != '0'
    ensures Text(Value(s)) == s && Value(s) > 0
  {
    if |s| > 1 {
      var front := s[..|s| - 1];
      TextOfValue(front);
      assert Value(s) / 10 == Value(front);
      assert Digit(Value(s) % 10) == s[|s| - 1];
      assert s == front + [s[|s| - 1]];
    }
  }

  /** Text never has a leading zero, except for zero itself. */
  lemma {:induction false} TextHasNoLeadingZero(n: nat)
    ensures n > 0 ==> Text(n)[0] != '0'
    ensures |Text(n)| == 1 <==> n < 10
  {
    if n >= 10 {
      TextHasNoLeadingZero(n / 10);
    }
  }

  lemma {:induction false} TextLength(n: nat, k: nat)
    requires 0 < k && n < Pow10(k)
    ensures |Text(n)| <= k
  {
    if n >= 10 {
      assert Pow10(1) == 10 * Pow10(0);
      TextLength(n / 10, k - 1);
    }
  }

  /** Numbers with `k` digits more than the prefix form one range. */
  lemma {:induction false} RangeOfLength(prefix: string, n: nat, k: nat)
    requires AllDigits(prefix) && prefix[0] != '0'
    ensures prefix <= Text(n) && |Text(n)| == |prefix| + k
       <==> Value(prefix) * Pow10(k) <= n < (Value(prefix) + 1) * Pow10(k)
  {
    if k == 0 {
      RangeOfSame(prefix, n);
    } else {
      RangeOfLength(prefix, n / 10, k - 1);
      PrefixOfLonger(prefix, n, k);
      TextOfValue(prefix);
      assert Pow10(k) == 10 * Pow10(k - 1);
      ScaledRange(Value(prefix), Pow10(k - 1), n);
    }
  }

  /** The text of a number is the prefix exactly when the number is the prefix's value. */
  lemma {:induction false} RangeOfSame(prefix: string, n: nat)
    requires AllDigits(prefix) && prefix[0] != '0'
    ensures prefix <= Text(n) && |Text(n)| == |prefix| <==> n == Value(prefix)
  {
    TextOfValue(prefix);
    ValueOfText(n);
    if prefix <= Text(n) && |Text(n)| == |prefix| {
      assert prefix == Text(n);
    }
  }

  lemma {:induction false} ScaledRange(v: nat, p: nat, n: nat)
    requires v > 0 && p > 0
    ensures v * (10 * p) <= n < (v + 1) * (10 * p) <==> v * p <= n / 10 < (v + 1) * p
    ensures v * (10 * p) <= n ==> n >= 10
  {
    var a, b := v * p, (v + 1) * p;
    assert v * (10 * p) == 10 * a && (v + 1) * (10 * p) == 10 * b;
    assert a == (v - 1) * p + p;
  }

  /** A longer text starts with the prefix exactly when the text without its last digit does. */
  lemma {:induction false} PrefixOfLonger(prefix: string, n: nat, k: nat)
    requires prefix != "" && k > 0
    ensures prefix <= Text(n) && |Text(n)| == |prefix| + k
       <==> n >= 10 && prefix <= Text(n / 10) && |Text(n / 10)| == |prefix| + k - 1
  {
    TextHasNoLeadingZero(n);
    if n >= 10 {
      assert Text(n)[..|Text(n)| - 1] == Text(n / 10);
    }
  }

  /** The ranges as the loop pushes them: one per total number of digits. */
  function Ranges(v: nat, count: nat): seq<Range> {
    seq(count, k requires 0 <= k < count => Range(v * Pow10(k), v * Pow10(k) + Pow10(k) - 1))
  }

  method BuildCartelaNumberPrefixRanges(prefix: string) returns (ranges: seq<Range>)
    ensures var trimmed := Trim(prefix);
      ranges == if !AllDigits(trimmed) || Value(trimmed) > MAX_SAFE_INTEGER || |trimmed| > MAX_CARTELA_DIGITS
                then [] else Ranges(Value(trimmed), MAX_CARTELA_DIGITS - |trimmed| + 1)
  {
    var trimmed := Trim(prefix);
    if !AllDigits(trimmed) {
      return [];
    }
    var prefixNumber := Value(trimmed);
    if prefixNumber > MAX_SAFE_INTEGER {
      return [];
    }
    ranges := [];
    var totalDigits := |trimmed|;
    while totalDigits <= MAX_CARTELA_DIGITS
      invariant |trimmed| <= totalDigits
      invariant |trimmed| <= MAX_CARTELA_DIGITS ==> totalDigits <= MAX_CARTELA_DIGITS + 1
      invariant |trimmed| > MAX_CARTELA_DIGITS ==> ranges == []
      invariant |trimmed| <= MAX_CARTELA_DIGITS ==> ranges == Ranges(prefixNumber, totalDigits - |trimmed|)
    {
      var scale := Pow10(totalDigits - |trimmed|);
      var min := prefixNumber * scale;
      var max := min + scale - 1;
      ranges := ranges + [Range(min, max)];
      totalDigits := totalDigits + 1;
    }
  }

  ghost predicate InRanges(ranges: seq<Range>, n: nat) {
    exists k | 0 <= k < |ranges| :: ranges[k].Contains(n)
  }

  /** The search the ranges stand for: membership is the same as "the text starts with the prefix". */
  ghost predicate Exact(prefix: string)
    requires AllDigits(prefix) && |prefix| <= MAX_CARTELA_DIGITS
  {
    forall n: nat | n < Pow10(MAX_CARTELA_DIGITS) ::
      InRanges(Ranges(Value(prefix), MAX_CARTELA_DIGITS - |prefix| + 1), n) <==> prefix <= Text(n)
  }

  lemma {:induction false} RangesMatchPrefix(prefix: string, n: nat)
    requires AllDigits(prefix) && |prefix| <= MAX_CARTELA_DIGITS && prefix[0] != '0'
    requires n < Pow10(MAX_CARTELA_DIGITS)
    ensures InRanges(Ranges(Value(prefix), MAX_CARTELA_DIGITS - |prefix| + 1), n) <==> prefix <= Text(n)
  {
    var ranges := Ranges(Value(prefix), MAX_CARTELA_DIGITS - |prefix| + 1);
    if prefix <= Text(n) {
      TextLength(n, MAX_CARTELA_DIGITS);
      var k := |Text(n)| - |prefix|;
      RangeOfLength(prefix, n, k);
      assert ranges[k].Contains(n) by {
        assert (Value(prefix) + 1) * Pow10(k) == Value(prefix) * Pow10(k) + Pow10(k);
      }
    }
    if InRanges(ranges, n) {
      var k :| 0 <= k < |ranges| && ranges[k].Contains(n);
      assert (Value(prefix) + 1) * Pow10(k) == Value(prefix) * Pow10(k) + Pow10(k);
      RangeOfLength(prefix, n, k);
    }
  }

  /** The ranges are exact for a prefix exactly when it does not start with a zero. */
  lemma {:induction false} ExactIffNoLeadingZero(prefix: string)
    requires AllDigits(prefix) && |prefix| <= MAX_CARTELA_DIGITS
    ensures Exact(prefix) <==> prefix[0] != '0'
  {
    if prefix[0] != '0' {
      forall n: nat | n < Pow10(MAX_CARTELA_DIGITS)
        ensures InRanges(Ranges(Value(prefix), MAX_CARTELA_DIGITS - |prefix| + 1), n) <==> prefix <= Text(n)
      {
        RangesMatchPrefix(prefix, n);
      }
    } else {
      LeadingZeroMisses(prefix);
    }
  }

  /** A number that a prefix with a leading zero wrongly finds. */
  lemma {:induction false} LeadingZeroMisses(prefix: string)
    requires AllDigits(prefix) && |prefix| <= MAX_CARTELA_DIGITS && prefix[0] == '0'
    ensures !Exact(prefix)
  {
    var ranges := Ranges(Value(prefix), MAX_CARTELA_DIGITS - |prefix| + 1);
    if |prefix| == 1 {
      assert Pow10(1) == 10 * Pow10(0);
      assert ranges[1].Contains(1);
      assert Text(1) == "1" && !(prefix <= Text(1));
      assert 1 < Pow10(MAX_CARTELA_DIGITS) by { PowersGrow(1, MAX_CARTELA_DIGITS); }
    } else {
      var n := Value(prefix);
      assert ranges[0].Contains(n);
      ValueBound(prefix);
      PowersGrow(|prefix|, MAX_CARTELA_DIGITS);
      TextHasNoLeadingZero(n);
      assert !(prefix <= Text(n));
    }
  }

  lemma {:induction false} ValueBound(s: string)
    requires AllDigits(s)
    ensures Value(s) < Pow10(|s|)
  {
    if |s| > 1 {
      ValueBound(s[..|s| - 1]);
    } else {
      assert Pow10(1) == 10 * Pow10(0);
    }
  }

  lemma {:induction false} PowersGrow(a: nat, b: nat)
    requires a <= b
    ensures Pow10(a) <= Pow10(b)
    ensures a > 0 ==> Pow10(a) >= 10
    decreases b - a, a
  {
    if a > 0 {
      assert Pow10(a) == 10 * Pow10(a - 1);
    }
    if a < b {
      PowersGrow(a + 1, b);
    }
  }

  lemma Stretch(v: nat, p: nat)
    requires v > 0
    ensures (v + 1) * p == v * p + p && v * (10 * p) == 10 * (v * p) && v * p >= p
  {
  }

  /** The ranges of a prefix do not overlap and come in increasing order. */
  lemma {:induction false} RangesIncrease(v: nat, count: nat, i: nat, j: nat)
    requires v > 0 && i < j < count
    ensures Ranges(v, count)[i].max < Ranges(v, count)[j].min
  {
    Stretch(v, Pow10(j - 1));
    if i + 1 < j {
      RangesIncrease(v, count, i, j - 1);
    }
  }
}
