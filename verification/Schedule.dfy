/**
 * The daily schedule of a line item (`calculate_schedule`): a spot count is
 * spread over the campaign days in pairs, the days that receive one pair more
 * than the others coming first.
 */
module Schedule {

  /** Spots ship in pairs: an odd count is raised to the next even number. */
  function RoundUpEven(n: int): (r: int)
    ensures r % 2 == 0
    ensures n <= r <= n + 1
  {
    if n % 2 != 0 then n + 1 else n
  }

  function Sum(s: seq<int>): int
  {
    if s == [] then 0 else s[0] + Sum(s[1..])
  }

  /**
   * `calculate_schedule(total_spots, days)`: no days give an empty schedule;
   * otherwise day `i` gets `2 * base` spots, plus one more pair on the first
   * `half % days` days, where `half` is half of the evened total and `base`
   * is `half / days` (both operands are non-negative or the divisor is
   * positive, so Dafny's division agrees with Python's floor division).
   */
  function CalculateSchedule(totalSpots: int, days: int): (r: seq<int>)
    ensures days <= 0 ==> r == []
    ensures days > 0 ==> |r| == days
    ensures forall i :: 0 <= i < |r| ==> r[i] % 2 == 0
    ensures forall i, j :: 0 <= i <= j < |r| ==> r[j] <= r[i] <= r[j] + 2
    ensures days > 0 ==> forall i :: 0 <= i < days ==>
      r[i] == 2 * (RoundUpEven(totalSpots) / 2 / days) + (if i < RoundUpEven(totalSpots) / 2 % days then 2 else 0)
  {
    if days <= 0 then []
    else
      var half := RoundUpEven(totalSpots) / 2;
      var base, rem := half / days, half % days;
      seq(days, i requires 0 <= i < days => (base + if i < rem then 1 else 0) * 2)
  }

  /** Ten spots over three days: five pairs, one pair each and two days with one more. */
  lemma TenOverThree()
    ensures CalculateSchedule(10, 3) == [4, 4, 2]
  {
    var r := CalculateSchedule(10, 3);
    assert r[0] == 4 && r[1] == 4 && r[2] == 2;
  }

  /** A sequence whose first `k` entries are `a + 2` and whose others are `a` sums to `|s| * a + 2 * k`. */
  lemma {:induction false} SumTwoLevels(s: seq<int>, a: int, k: nat)
    requires k <= |s|
    requires forall i :: 0 <= i < k ==> s[i] == a + 2
    requires forall i :: k <= i < |s| ==> s[i] == a
    ensures Sum(s) == |s| * a + 2 * k
  {
    if s != [] {
      var k' := if k > 0 then k - 1 else 0;
      SumTwoLevels(s[1..], a, k');
      assert |s| * a == a + (|s| - 1) * a;
    }
  }

  /** Conservation: the days of a schedule add up to the evened spot count. */
  lemma ScheduleSum(totalSpots: int, days: int)
    requires days > 0
    ensures Sum(CalculateSchedule(totalSpots, days)) == RoundUpEven(totalSpots)
  {
    var s := CalculateSchedule(totalSpots, days);
    var half := RoundUpEven(totalSpots) / 2;
    var base, rem := half / days, half % days;
    SumTwoLevels(s, 2 * base, rem);
    assert half == days * base + rem;
    assert days * (2 * base) == 2 * (days * base);
  }

  lemma MulAtLeastDivisor(d: int, x: int)
    requires d > 0
    ensures x >= 1 ==> d * x >= d
    ensures x <= -1 ==> d * x <= -d
  {
  }

  /** Euclidean division is unique. */
  lemma DivModUnique(n: int, d: int, q: int, r: int)
    requires d > 0 && 0 <= r < d && n == d * q + r
    ensures q == n / d && r == n % d
  {
    var q', r' := n / d, n % d;
    assert n == d * q' + r';
    assert d * (q - q') == r' - r;
    MulAtLeastDivisor(d, q - q');
  }

  /** The number of leading entries of `s` equal to `v`. */
  function Leading(s: seq<int>, v: int): (n: nat)
    ensures n <= |s|
    ensures forall i :: 0 <= i < n ==> s[i] == v
    ensures n < |s| ==> s[n] != v
  {
    if s != [] && s[0] == v then 1 + Leading(s[1..], v) else 0
  }

  /**
   * The schedule is the ONLY way to spread the evened count over `days` days
   * in even, non-increasing daily counts that differ by at most one pair:
   * any sequence with those properties is the schedule.
   */
  lemma ScheduleUnique(s: seq<int>, totalSpots: int, days: int)
    requires days > 0 && |s| == days
    requires forall i :: 0 <= i < days ==> s[i] % 2 == 0
    requires forall i, j :: 0 <= i <= j < days ==> s[j] <= s[i] <= s[j] + 2
    requires Sum(s) == RoundUpEven(totalSpots)
    ensures s == CalculateSchedule(totalSpots, days)
  {
    var a := s[days - 1];
    var k := Leading(s, a + 2);
    assert k < days;
    forall i | 0 <= i < days
      ensures s[i] == (if i < k then a + 2 else a)
    {
      if i >= k {
        assert s[k] <= a + 2 && s[k] != a + 2 && s[k] % 2 == 0 && a % 2 == 0 && s[k] >= a;
        assert s[k] == a;
        assert a <= s[i] <= s[k];
      }
    }
    SumTwoLevels(s, a, k);
    var b := a / 2;
    assert a == 2 * b;
    var half := RoundUpEven(totalSpots) / 2;
    assert days * a == 2 * (days * b);
    assert half == days * b + k;
    DivModUnique(half, days, b, k);
    var r := CalculateSchedule(totalSpots, days);
    assert |r| == |s|;
    forall i | 0 <= i < days ensures s[i] == r[i] {}
  }
}
