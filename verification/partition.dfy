/** The split of the RandomX dataset among the threads that initialise it
    (`Workers::updateDataset`): thread `i` of `n` fills the items from
    `count * i / n` up to, not including, `count * (i + 1) / n`. The products
    are taken over unbounded naturals. */
module DatasetPartition {

  /** First item of thread `i`'s range; the range of thread `i` ends where
      that of thread `i + 1` begins. */
  function Lo(count: nat, n: nat, i: nat): nat
    requires n >= 1
  {
    count * i / n
  }

  /** Number of items thread `i` fills. */
  function Len(count: nat, n: nat, i: nat): nat
    requires n >= 1
  {
    LoMonotone(count, n, i, i + 1);
    Lo(count, n, i + 1) - Lo(count, n, i)
  }

  // --- division facts ---------------------------------------------------------

  lemma MulMonotone(a: nat, b: nat, k: nat)
    requires a <= b
    ensures a * k <= b * k
  {
    assert b * k - a * k == (b - a) * k;
  }

  /** The quotient is the only `q` with `x == q * n + r` and `0 <= r < n`. */
  lemma DivUnique(x: nat, n: nat, q: nat, r: nat)
    requires n >= 1 && x == q * n + r && r < n
    ensures x / n == q
  {
    var d := x / n;
    assert x == d * n + x % n;
    if d > q {
      MulMonotone(q + 1, d, n);
      assert false;
    } else if d < q {
      MulMonotone(d + 1, q, n);
      assert false;
    }
  }

  lemma DivMonotone(a: nat, b: nat, n: nat)
    requires n >= 1 && a <= b
    ensures a / n <= b / n
  {
    if a / n > b / n {
      MulMonotone(b / n + 1, a / n, n);
      assert false;
    }
  }

  /** Adding a multiple of `n` adds its quotient. */
  lemma DivAddMultiple(k: nat, m: nat, n: nat)
    requires n >= 1
    ensures (k * n + m) / n == k + m / n
  {
    DivUnique(k * n + m, n, k + m / n, m % n);
  }

  /** Two numbers less than `n` apart have quotients at most one apart. */
  lemma DivStep(a: nat, b: nat, n: nat)
    requires n >= 1 && a <= b < a + n
    ensures a / n <= b / n <= a / n + 1
  {
    DivMonotone(a, b, n);
    if b / n > a / n + 1 {
      MulMonotone(a / n + 2, b / n, n);
      assert false;
    }
  }

  // --- the ranges ---------------------------------------------------------------

  lemma {:induction false} LoMonotone(count: nat, n: nat, i: nat, j: nat)
    requires n >= 1 && i <= j
    ensures Lo(count, n, i) <= Lo(count, n, j)
  {
    MulMonotone(i, j, count);
    assert count * i == i * count && count * j == j * count;
    DivMonotone(count * i, count * j, n);
  }

  /** The first range starts at item 0 and the last one ends at `count`. */
  lemma Ends(count: nat, n: nat)
    requires n >= 1
    ensures Lo(count, n, 0) == 0
    ensures Lo(count, n, n) == count
  {
    DivUnique(count * n, n, count, 0);
  }

  /** Ranges of different threads do not overlap: the earlier one ends at or
      before the later one starts. */
  lemma Disjoint(count: nat, n: nat, i: nat, j: nat)
    requires n >= 1 && i < j
    ensures Lo(count, n, i + 1) <= Lo(count, n, j)
  {
    LoMonotone(count, n, i + 1, j);
  }

  /** Every range holds `count / n` items or one more. */
  lemma Balanced(count: nat, n: nat, i: nat)
    requires n >= 1
    ensures count / n <= Len(count, n, i) <= count / n + 1
  {
    var q := count / n;
    var r := count % n;
    assert count == q * n + r;
    assert count * i == (q * i) * n + r * i by {
      assert count * i == (q * n + r) * i;
    }
    assert count * (i + 1) == (q * (i + 1)) * n + r * (i + 1) by {
      assert count * (i + 1) == (q * n + r) * (i + 1);
    }
    DivAddMultiple(q * i, r * i, n);
    DivAddMultiple(q * (i + 1), r * i + r, n);
    assert r * (i + 1) == r * i + r;
    DivStep(r * i, r * i + r, n);
    assert q * (i + 1) == q * i + q;
  }

  /** The thread whose range holds item `x`, searching from thread `i`. */
  function OwnerFrom(count: nat, n: nat, x: nat, i: nat): (o: nat)
    requires n >= 1 && x < count && i < n && Lo(count, n, i) <= x
    ensures i <= o < n
    ensures Lo(count, n, o) <= x < Lo(count, n, o + 1)
    decreases n - i
  {
    Ends(count, n);
    if x < Lo(count, n, i + 1) then i
    else OwnerFrom(count, n, x, i + 1)
  }

  /** Item `x` lies in thread `i`'s range. */
  predicate InRange(count: nat, n: nat, i: nat, x: nat)
    requires n >= 1
  {
    Lo(count, n, i) <= x < Lo(count, n, i + 1)
  }

  /** The ranges cover the dataset: every item lies in some thread's range. */
  lemma Covers(count: nat, n: nat, x: nat)
    requires n >= 1 && x < count
    ensures exists i :: 0 <= i < n && InRange(count, n, i, x)
  {
    Ends(count, n);
    var o := OwnerFrom(count, n, x, 0);
    assert InRange(count, n, o, x);
  }

  /** ... and in only one. */
  lemma OwnerUnique(count: nat, n: nat, x: nat, i: nat, j: nat)
    requires n >= 1 && InRange(count, n, i, x) && InRange(count, n, j, x)
    ensures i == j
  {
    if i < j {
      Disjoint(count, n, i, j);
    } else if j < i {
      Disjoint(count, n, j, i);
    }
  }

  /** The lengths add up to the dataset: the first `k` ranges hold the items
      below `Lo(k)`. */
  function Total(count: nat, n: nat, k: nat): (t: nat)
    requires n >= 1
    ensures t == Lo(count, n, k)
  {
    if k == 0 then Ends(count, n); 0 else Total(count, n, k - 1) + Len(count, n, k - 1)
  }

  lemma AllRangesAddUp(count: nat, n: nat)
    requires n >= 1
    ensures Total(count, n, n) == count
  {
    Ends(count, n);
  }
}
