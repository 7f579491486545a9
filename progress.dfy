/**
 * The aggregate upload progress: the share of finished files as a whole
 * percentage, rounded to the nearest integer with halves rounded up
 * (JavaScript's Math.round), computed here on integers.
 */
module Progress {

  /** Percentage of `k` finished files out of `n`, rounded to nearest, ties up. */
  function Percent(k: nat, n: nat): (r: nat)
    requires 0 < n && k <= n
    ensures r <= 100
  {
    QuotientAtMost100(k, n);
    (200 * k + n) / (2 * n)
  }

  /**
   * The percentage is the integer nearest to 100 * k / n, a half rounding up:
   * r - 1/2 <= 100 * k / n < r + 1/2, multiplied out by 2 * n.
   */
  lemma PercentRounds(k: nat, n: nat)
    requires 0 < n && k <= n
    ensures var r := Percent(k, n); 2 * n * r <= 200 * k + n < 2 * n * (r + 1)
  {
    DivBounds(200 * k + n, 2 * n);
  }

  lemma QuotientAtMost100(k: nat, n: nat)
    requires 0 < n && k <= n
    ensures (200 * k + n) / (2 * n) <= 100
  {
    var r := (200 * k + n) / (2 * n);
    DivBounds(200 * k + n, 2 * n);
    if r > 100 {
      MulMonotone(2 * n, 101, r);
      assert false;
    }
  }

  /** Integer division brackets its dividend between consecutive multiples. */
  lemma DivBounds(x: nat, d: nat)
    requires 0 < d
    ensures d * (x / d) <= x < d * (x / d + 1)
  {
    var q, m := x / d, x % d;
    assert x == d * q + m;
    assert d * (q + 1) == d * q + d;
  }

  /** Finishing more files never lowers the percentage. */
  lemma PercentMonotone(j: nat, k: nat, n: nat)
    requires 0 < n && j <= k <= n
    ensures Percent(j, n) <= Percent(k, n)
  {
    var a, b := Percent(j, n), Percent(k, n);
    PercentRounds(j, n);
    PercentRounds(k, n);
    if a > b {
      MulMonotone(2 * n, b + 1, a);
      assert false;
    }
  }

  lemma MulMonotone(c: nat, x: nat, y: nat)
    requires x <= y
    ensures c * x <= c * y
  {
  }

  /** When every file is finished the percentage is exactly 100. */
  lemma PercentDone(n: nat)
    requires 0 < n
    ensures Percent(n, n) == 100
  {
    var r := Percent(n, n);
    PercentRounds(n, n);
    if r < 100 {
      MulMonotone(2 * n, r + 1, 100);
      assert false;
    }
  }

  /** Before any file is finished the percentage is 0. */
  lemma PercentNone(n: nat)
    requires 0 < n
    ensures Percent(0, n) == 0
  {
    var r := Percent(0, n);
    PercentRounds(0, n);
    if r > 0 {
      MulMonotone(2 * n, 1, r);
      assert false;
    }
  }

  /** The percentages shown after each of the first `k` of `n` files, in order. */
  function Trace(k: nat, n: nat): (t: seq<nat>)
    requires 0 < n && k <= n
    ensures |t| == k
  {
    if k == 0 then [] else Trace(k - 1, n) + [Percent(k, n)]
  }

  /** The j-th value shown is the percentage of j + 1 finished files; the values never decrease. */
  lemma {:induction false} TraceAt(k: nat, n: nat)
    requires 0 < n && k <= n
    ensures forall j :: 0 <= j < k ==> Trace(k, n)[j] == Percent(j + 1, n)
    ensures forall i, j :: 0 <= i <= j < k ==> Trace(k, n)[i] <= Trace(k, n)[j]
  {
    if k > 0 {
      TraceAt(k - 1, n);
      forall i, j | 0 <= i <= j < k ensures Trace(k, n)[i] <= Trace(k, n)[j] {
        PercentMonotone(i + 1, j + 1, n);
      }
    }
  }
}
