/**
 * The logit post-processing of `generate_next_token`: temperature scaling
 * and top-k masking of the last position's logits, over one row of reals.
 *
 * `argsort` is taken as a stable sort into descending order of logits,
 * `slice` as the first `top_k` sorted indices, and `scatter` of `top_k`
 * ones into a zero mask as raising when more than the vocabulary size of
 * updates are given.
 */
module Sampling {
  import opened Wrappers
  import opened Tensors

  /** The value a masked-out logit is replaced with (`-1e10`). */
  const MaskValue: real := -10000000000.0

  /** Logits divided by a positive temperature; any other temperature passes them through. */
  function ApplyTemperature(logits: seq<real>, temperature: real): (r: seq<real>)
    ensures |r| == |logits|
    ensures temperature <= 0.0 ==> r == logits
  {
    if temperature > 0.0 then seq(|logits|, i requires 0 <= i < |logits| => logits[i] / temperature)
    else logits
  }

  lemma DivMono(a: real, b: real, t: real)
    requires t > 0.0
    ensures a >= b <==> a / t >= b / t
  {
    assert a / t * t == a && b / t * t == b;
    assert a / t >= b / t ==> a / t * t >= b / t * t;
    assert a >= b ==> (a - b) / t >= 0.0;
    assert (a - b) / t == a / t - b / t;
  }

  /** Two logit rows that order every pair of positions alike. */
  predicate SameOrder(l1: seq<real>, l2: seq<real>)
  {
    |l1| == |l2| && forall i, j :: 0 <= i < |l1| && 0 <= j < |l1| ==> (l1[i] >= l1[j] <==> l2[i] >= l2[j])
  }

  /** A positive temperature keeps the order of every pair of logits. */
  lemma TemperatureKeepsOrder(logits: seq<real>, temperature: real)
    requires temperature > 0.0
    ensures SameOrder(logits, ApplyTemperature(logits, temperature))
  {
    var scaled := ApplyTemperature(logits, temperature);
    forall i, j | 0 <= i < |logits| && 0 <= j < |logits|
      ensures logits[i] >= logits[j] <==> scaled[i] >= scaled[j]
    {
      DivMono(logits[i], logits[j], temperature);
    }
  }

  predicate ValidIndices(s: seq<nat>, n: nat)
  {
    forall p :: 0 <= p < |s| ==> s[p] < n
  }

  predicate Distinct(s: seq<nat>)
  {
    forall p, q :: 0 <= p < q < |s| ==> s[p] != s[q]
  }

  /** Indices of `l` in descending order of their logits, equal logits in increasing index order. */
  predicate SortedDesc(l: seq<real>, s: seq<nat>)
    requires ValidIndices(s, |l|)
  {
    forall p, q :: 0 <= p < q < |s| ==> l[s[p]] >= l[s[q]] && (l[s[p]] == l[s[q]] ==> s[p] < s[q])
  }

  /** Index `i` placed after every index of `s` whose logit is at least `l[i]` and before the rest. */
  function InsertDesc(l: seq<real>, i: nat, s: seq<nat>): (r: seq<nat>)
    requires i < |l| && ValidIndices(s, |l|)
    ensures |r| == |s| + 1 && ValidIndices(r, |l|)
    ensures forall x :: x in r <==> x == i || x in s
  {
    if s == [] then [i]
    else if l[s[0]] >= l[i] then [s[0]] + InsertDesc(l, i, s[1..])
    else [i] + s
  }

  /** Putting an index ahead of a sorted, duplicate-free order keeps it so when it precedes every element. */
  lemma ConsSorted(l: seq<real>, a: nat, t: seq<nat>)
    requires a < |l| && ValidIndices(t, |l|) && SortedDesc(l, t) && Distinct(t)
    requires forall x :: x in t ==> l[a] >= l[x] && (l[a] == l[x] ==> a < x) && a != x
    ensures ValidIndices([a] + t, |l|) && SortedDesc(l, [a] + t) && Distinct([a] + t)
  {
    var r := [a] + t;
    assert forall q :: 0 < q < |r| ==> r[q] == t[q - 1] && t[q - 1] in t;
  }

  /** Inserting an index larger than all others keeps the order sorted, stable and duplicate-free. */
  lemma {:induction false} InsertDescSorted(l: seq<real>, i: nat, s: seq<nat>)
    requires i < |l| && ValidIndices(s, |l|) && SortedDesc(l, s) && Distinct(s)
    requires forall p :: 0 <= p < |s| ==> s[p] < i
    ensures SortedDesc(l, InsertDesc(l, i, s)) && Distinct(InsertDesc(l, i, s))
  {
    if s == [] {
    } else if l[s[0]] >= l[i] {
      var rest := s[1..];
      assert forall p :: 0 <= p < |rest| ==> rest[p] == s[p + 1];
      InsertDescSorted(l, i, rest);
      forall x | x in rest
        ensures l[s[0]] >= l[x] && (l[s[0]] == l[x] ==> s[0] < x) && s[0] != x
      {
        var p :| 0 <= p < |rest| && rest[p] == x;
        assert s[p + 1] == x;
      }
      ConsSorted(l, s[0], InsertDesc(l, i, rest));
    } else {
      forall x | x in s
        ensures l[i] >= l[x] && (l[i] == l[x] ==> i < x) && i != x
      {
        var p :| 0 <= p < |s| && s[p] == x;
        assert p == 0 || l[s[0]] >= l[s[p]];
      }
      ConsSorted(l, i, s);
    }
  }

  /** `argsort` of the first `n` positions. */
  function SortUpTo(l: seq<real>, n: nat): (s: seq<nat>)
    requires n <= |l|
    ensures |s| == n && ValidIndices(s, |l|)
  {
    if n == 0 then [] else InsertDesc(l, n - 1, SortUpTo(l, n - 1))
  }

  /** Positions of `l` sorted by descending logit (`argsort` into descending order). */
  function ArgSortDesc(l: seq<real>): (s: seq<nat>)
    ensures |s| == |l| && ValidIndices(s, |l|)
  {
    SortUpTo(l, |l|)
  }

  /** The first `n` positions of `l`, each of them there. */
  lemma {:induction false} SortUpToMembers(l: seq<real>, n: nat)
    requires n <= |l|
    ensures forall x: nat :: x in SortUpTo(l, n) <==> x < n
  {
    if n > 0 {
      SortUpToMembers(l, n - 1);
      assert SortUpTo(l, n) == InsertDesc(l, n - 1, SortUpTo(l, n - 1));
    }
  }

  /** Every index of the first `n` sorted positions is below `n`. */
  lemma SortUpToBelow(l: seq<real>, n: nat)
    requires n <= |l|
    ensures forall p :: 0 <= p < n ==> SortUpTo(l, n)[p] < n
  {
    var s := SortUpTo(l, n);
    forall p | 0 <= p < n
      ensures s[p] < n
    {
      SortUpToMembers(l, n);
      assert s[p] in s;
    }
  }

  /** The first `n` positions, each once, in descending order of logit with ties by index. */
  lemma {:induction false} SortUpToIsSortedPermutation(l: seq<real>, n: nat)
    requires n <= |l|
    ensures forall x: nat :: x in SortUpTo(l, n) <==> x < n
    ensures Distinct(SortUpTo(l, n)) && SortedDesc(l, SortUpTo(l, n))
  {
    SortUpToMembers(l, n);
    if n > 0 {
      var m: nat := n - 1;
      SortUpToIsSortedPermutation(l, m);
      SortUpToBelow(l, m);
      InsertDescSorted(l, m, SortUpTo(l, m));
    }
  }

  /** `argsort` is a permutation of the positions, sorted by descending logit, ties in index order. */
  lemma ArgSortDescIsSortedPermutation(l: seq<real>)
    ensures forall x: nat :: x in ArgSortDesc(l) <==> x < |l|
    ensures Distinct(ArgSortDesc(l)) && SortedDesc(l, ArgSortDesc(l))
  {
    SortUpToIsSortedPermutation(l, |l|);
  }

  lemma {:induction false} InsertDescSameOrder(l1: seq<real>, l2: seq<real>, i: nat, s: seq<nat>)
    requires SameOrder(l1, l2) && i < |l1| && ValidIndices(s, |l1|)
    ensures InsertDesc(l1, i, s) == InsertDesc(l2, i, s)
  {
    if s != [] {
      InsertDescSameOrder(l1, l2, i, s[1..]);
    }
  }

  lemma {:induction false} SortUpToSameOrder(l1: seq<real>, l2: seq<real>, n: nat)
    requires SameOrder(l1, l2) && n <= |l1|
    ensures SortUpTo(l1, n) == SortUpTo(l2, n)
  {
    if n > 0 {
      SortUpToSameOrder(l1, l2, n - 1);
      InsertDescSameOrder(l1, l2, n - 1, SortUpTo(l1, n - 1));
    }
  }

  /** The positions `top_k` keeps: the first `k` of the descending sort. */
  function KeptPositions(l: seq<real>, k: nat): (kept: seq<nat>)
    requires k <= |l|
    ensures |kept| == k && ValidIndices(kept, |l|)
  {
    ArgSortDesc(l)[..k]
  }

  /**
   * Top-k masking: with `top_k <= 0` the logits pass through; otherwise a
   * mask with ones at the first `top_k` sorted positions selects, by `where`,
   * between each logit and `MaskValue`. Asking for more positions than there
   * are raises in `scatter`.
   */
  function TopKMask(l: seq<real>, topK: int): (r: Result<seq<real>, TensorError>)
    ensures topK <= 0 ==> r == Success(l)
    ensures topK > |l| ==> r.Failure?
    ensures 0 < topK <= |l| ==> r.Success? && |r.value| == |l|
  {
    if topK <= 0 then Success(l)
    else if topK > |l| then Failure(ShapeMismatch("scatter"))
    else
      var kept := KeptPositions(l, topK);
      var mask := seq(|l|, i => if i in kept then 1.0 else 0.0);
      Success(seq(|l|, i requires 0 <= i < |l| => if mask[i] != 0.0 then l[i] else MaskValue))
  }

  /**
   * For `0 < k <= |l|`, exactly `k` distinct positions keep their logit, every
   * other position holds `MaskValue`, and no kept logit is below a masked one.
   */
  lemma TopKKeepsHighest(l: seq<real>, k: int)
    requires 0 < k <= |l|
    ensures var r := TopKMask(l, k).value;
      var kept := KeptPositions(l, k);
      && |kept| == k && Distinct(kept)
      && (forall i :: 0 <= i < |l| ==> r[i] == if i in kept then l[i] else MaskValue)
      && (forall i, j :: i in kept && 0 <= j < |l| && j !in kept ==> l[i] >= l[j])
  {
    var s := ArgSortDesc(l);
    ArgSortDescIsSortedPermutation(l);
    var kept := s[..k];
    assert Distinct(kept);
    forall i, j | i in kept && 0 <= j < |l| && j !in kept
      ensures l[i] >= l[j]
    {
      var p :| 0 <= p < k && kept[p] == i;
      assert j in s;
      var q :| 0 <= q < |s| && s[q] == j;
      assert forall t :: 0 <= t < k ==> s[t] in kept;
      assert p < q;
    }
  }

  /** Scaling by a positive temperature never changes which positions top-k keeps. */
  lemma TemperatureKeepsTopK(l: seq<real>, temperature: real, k: nat)
    requires temperature > 0.0 && k <= |l|
    ensures KeptPositions(ApplyTemperature(l, temperature), k) == KeptPositions(l, k)
  {
    TemperatureKeepsOrder(l, temperature);
    SortUpToSameOrder(l, ApplyTemperature(l, temperature), |l|);
  }
}
