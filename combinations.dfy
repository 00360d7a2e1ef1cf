/** The order in which the velocity pass meets the particles two by two: the combinations
    of two distinct query positions `i < j`, in lexicographic order, as Bevy's
    `iter_combinations_mut` yields them. */
module Combinations {

  type Pair = (nat, nat)

  /** The pairs `(i, j)` for `j` from `lo` up to `hi - 1`, in order. */
  function Row(i: nat, lo: nat, hi: nat): (r: seq<Pair>)
    ensures |r| == (if lo <= hi then hi - lo else 0)
    ensures forall t :: 0 <= t < |r| ==> r[t] == (i, lo + t)
    decreases hi - lo
  {
    if lo >= hi then [] else [(i, lo)] + Row(i, lo + 1, hi)
  }

  /** The rows of the first members `0` up to `i - 1` among `n` particles, one after the
      other. */
  function Rows(i: nat, n: nat): (r: seq<Pair>)
    ensures forall t :: 0 <= t < |r| ==> r[t].0 < i && r[t].0 < r[t].1 < n
  {
    if i == 0 then [] else Rows(i - 1, n) + Row(i - 1, i, n)
  }

  /** Every combination of two of `n` particles, in the order they are visited. */
  function PairOrder(n: nat): (r: seq<Pair>)
    ensures forall t :: 0 <= t < |r| ==> r[t].0 < r[t].1 < n
  {
    Rows(n, n)
  }

  predicate LexLess(p: Pair, q: Pair) {
    p.0 < q.0 || (p.0 == q.0 && p.1 < q.1)
  }

  predicate StrictlyIncreasing(l: seq<Pair>) {
    forall s, t :: 0 <= s < t < |l| ==> LexLess(l[s], l[t])
  }

  /** One more step of a row appends one pair. */
  lemma RowExtend(i: nat, lo: nat, hi: nat)
    requires lo <= hi
    ensures Row(i, lo, hi + 1) == Row(i, lo, hi) + [(i, hi)]
  {
    assert |Row(i, lo, hi + 1)| == |Row(i, lo, hi) + [(i, hi)]|;
  }

  lemma {:induction false} RowsComplete(i: nat, n: nat, a: nat, b: nat)
    ensures (a, b) in Rows(i, n) <==> a < i && a < b < n
  {
    if i > 0 {
      var row := Row(i - 1, i, n);
      RowsComplete(i - 1, n, a, b);
      if a == i - 1 && a < b < n {
        assert row[b - i] == (a, b);
      }
      assert (a, b) in row <==> a == i - 1 && a < b < n;
    }
  }

  lemma {:induction false} RowsSorted(i: nat, n: nat)
    ensures StrictlyIncreasing(Rows(i, n))
  {
    if i > 0 {
      RowsSorted(i - 1, n);
      var rest, row := Rows(i - 1, n), Row(i - 1, i, n);
      var l := rest + row;
      forall s, t | 0 <= s < t < |l| ensures LexLess(l[s], l[t]) {
        if t < |rest| {
          assert l[s] == rest[s] && l[t] == rest[t];
        } else if s < |rest| {
          assert l[s] == rest[s] && l[t] == row[t - |rest|];
        } else {
          assert l[s] == row[s - |rest|] && l[t] == row[t - |rest|];
        }
      }
    }
  }

  lemma {:induction false} RowsSize(i: nat, n: nat)
    requires i <= n
    ensures 2 * |Rows(i, n)| == i * (2 * n - i - 1)
  {
    if i > 0 {
      RowsSize(i - 1, n);
      assert |Rows(i, n)| == |Rows(i - 1, n)| + (n - i);
      assert (i - 1) * (2 * n - i) + 2 * (n - i) == i * (2 * n - i - 1);
    }
  }

  /** The pass visits the pair `(a, b)` exactly when `a < b < n`: every unordered pair of
      distinct particles, always with the lower index first. */
  lemma PairOrderComplete(n: nat, a: nat, b: nat)
    ensures (a, b) in PairOrder(n) <==> a < b < n
  {
    RowsComplete(n, n, a, b);
  }

  /** The order is strictly increasing, so no pair is visited twice. */
  lemma PairOrderNoRepeats(n: nat)
    ensures StrictlyIncreasing(PairOrder(n))
    ensures forall s, t :: 0 <= s < t < |PairOrder(n)| ==> PairOrder(n)[s] != PairOrder(n)[t]
  {
    RowsSorted(n, n);
  }

  /** `n` particles give `n (n - 1) / 2` pair steps. */
  lemma PairOrderSize(n: nat)
    ensures |PairOrder(n)| == n * (n - 1) / 2
  {
    RowsSize(n, n);
    assert 2 * |PairOrder(n)| == n * (n - 1);
  }
}
