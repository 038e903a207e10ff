/**
 * The per-node fan-out gate: a producer with `totalDependantCount` consumers is "resolved"
 * (its render target may be handed back) once every consumer has asked, and the count
 * then starts over for the next frame.
 */
module DependencyResolvers {

  /** Math.min on the integers. */
  function Min(a: int, b: int): (m: int)
    ensures m <= a && m <= b && (m == a || m == b)
  {
    if a < b then a else b
  }

  /**
   * One isResolved call from `used` with `total` consumers: the new count is clamped to
   * `total`, the call answers whether the clamped count reached `total`, and a resolved
   * gate starts over at 0.
   */
  function Resolve(total: int, used: int): (res: (bool, int))
    ensures res.0 <==> used + 1 >= total
    ensures res.0 ==> res.1 == 0
    ensures !res.0 ==> res.1 == used + 1 && res.1 < total
  {
    var clamped := Min(used + 1, total);
    var equal := total == clamped;
    (equal, if equal then 0 else clamped)
  }

  /** The answers of `calls` consecutive isResolved calls starting from `used`. */
  function Outcomes(total: int, used: int, calls: nat): (os: seq<bool>)
    ensures |os| == calls
    decreases calls
  {
    if calls == 0 then []
    else [Resolve(total, used).0] + Outcomes(total, Resolve(total, used).1, calls - 1)
  }

  /** The used count after `calls` consecutive isResolved calls starting from `used`. */
  function UsedAfter(total: int, used: int, calls: nat): int
    decreases calls
  {
    if calls == 0 then used else UsedAfter(total, Resolve(total, used).1, calls - 1)
  }

  /**
   * A gate that is never negative stays so, whatever the total (disconnects may lower it),
   * and with a non-negative total the new count never exceeds it.
   */
  lemma ResolveKeepsCountNonNegative(total: int, used: int)
    requires used >= 0
    ensures Resolve(total, used).1 >= 0
    ensures total >= 0 ==> Resolve(total, used).1 <= total
  {
  }

  /** With no consumers (or fewer), every call answers true. */
  lemma {:induction false} NoDependantsAlwaysResolved(total: int, used: int, calls: nat)
    requires total <= 0 && used >= 0
    ensures forall i :: 0 <= i < calls ==> Outcomes(total, used, calls)[i]
  {
    if calls > 0 {
      NoDependantsAlwaysResolved(total, 0, calls - 1);
    }
  }

  /**
   * With n >= 1 consumers and a count of j < n, the calls answer false until the (n - j)-th,
   * which answers true and resets the count.
   */
  lemma {:induction false} CountsUpToResolve(n: int, j: int)
    requires 0 <= j < n
    ensures Outcomes(n, j, n - j) == seq(n - j - 1, _ => false) + [true]
    ensures UsedAfter(n, j, n - j) == 0
    decreases n - j
  {
    if j < n - 1 {
      CountsUpToResolve(n, j + 1);
      assert Outcomes(n, j, n - j) == [false] + Outcomes(n, j + 1, n - j - 1);
      assert [false] + seq(n - j - 2, _ => false) == seq(n - j - 1, _ => false);
    }
  }

  /** The answers of one round with n consumers: n - 1 times false, then true. */
  function Round(n: nat): (os: seq<bool>)
    requires n >= 1
    ensures |os| == n && os[n - 1] && forall i :: 0 <= i < n - 1 ==> !os[i]
  {
    seq(n - 1, _ => false) + [true]
  }

  function Repeat(os: seq<bool>, k: nat): (rs: seq<bool>)
    ensures |rs| == k * |os|
  {
    if k == 0 then [] else Repeat(os, k - 1) + os
  }

  lemma {:induction false} OutcomesAppend(total: int, used: int, a: nat, b: nat)
    ensures Outcomes(total, used, a + b) == Outcomes(total, used, a) + Outcomes(total, UsedAfter(total, used, a), b)
    ensures UsedAfter(total, used, a + b) == UsedAfter(total, UsedAfter(total, used, a), b)
    decreases a
  {
    if a > 0 {
      OutcomesAppend(total, Resolve(total, used).1, a - 1, b);
      assert a + b - 1 == (a - 1) + b;
    }
  }

  /**
   * With n >= 1 consumers held fixed, k * n calls from a fresh gate answer k rounds of
   * "false n - 1 times, then true", and leave the gate fresh again.
   */
  lemma {:induction false} ResolvedEveryNthCall(n: int, k: nat)
    requires n >= 1
    ensures Outcomes(n, 0, k * n) == Repeat(Round(n), k)
    ensures UsedAfter(n, 0, k * n) == 0
  {
    if k > 0 {
      ResolvedEveryNthCall(n, k - 1);
      assert k * n == (k - 1) * n + n;
      OutcomesAppend(n, 0, (k - 1) * n, n);
      CountsUpToResolve(n, 0);
    }
  }

  class DependencyResolver {
    var totalDependantCount: int
    var dependencyUsedCount: int

    /** The count of calls so far in this round is never negative. */
    ghost predicate Valid()
      reads this`dependencyUsedCount
    {
      dependencyUsedCount >= 0
    }

    constructor ()
      ensures totalDependantCount == 0 && dependencyUsedCount == 0
      ensures Valid()
    {
      totalDependantCount := 0;
      dependencyUsedCount := 0;
    }

    method IncrementDependencyUseCount()
      modifies this`dependencyUsedCount
      ensures dependencyUsedCount <= totalDependantCount
      ensures dependencyUsedCount == Min(old(dependencyUsedCount) + 1, totalDependantCount)
    {
      dependencyUsedCount := dependencyUsedCount + 1;
      dependencyUsedCount := Min(dependencyUsedCount, totalDependantCount);
    }

    method IsResolved() returns (equal: bool)
      modifies this`dependencyUsedCount
      ensures old(Valid()) ==> Valid()
      ensures (equal, dependencyUsedCount) == Resolve(totalDependantCount, old(dependencyUsedCount))
    {
      IncrementDependencyUseCount();
      equal := totalDependantCount == dependencyUsedCount;
      if equal {
        dependencyUsedCount := 0;
      }
    }
  }
}
