/** Selection and choice helpers: which cells get noised, and weighted
    choice by inverting a cumulative distribution. */
module Utilities {
  import opened Tables

  // ---------------------------------------------------------------------
  // Weighted choice

  /** Python's sum(): left to right. */
  function Sum(w: seq<real>): real
  {
    if w == [] then 0.0 else Sum(w[..|w| - 1]) + w[|w| - 1]
  }

  predicate NonNegative(w: seq<real>)
  {
    forall i :: 0 <= i < |w| ==> w[i] >= 0.0
  }

  /** Weights the choice can use: none negative and, unless there are none,
      a positive total (a zero total would divide by zero). */
  predicate Admissible(w: seq<real>)
  {
    NonNegative(w) && (|w| == 0 || Sum(w) > 0.0)
  }

  /** np.ones(n) / n */
  function UniformWeights(n: nat): (w: seq<real>)
    ensures |w| == n && forall i :: 0 <= i < n ==> w[i] == 1.0 / n as real
  {
    seq(n, i requires 0 <= i < n => 1.0 / n as real)
  }

  /** weights / sum(weights) */
  function Pmf(w: seq<real>): (p: seq<real>)
    requires |w| == 0 || Sum(w) != 0.0
    ensures |p| == |w|
  {
    seq(|w|, i requires 0 <= i < |w| => w[i] / Sum(w))
  }

  /** np.cumsum */
  function Cumsum(p: seq<real>): (c: seq<real>)
    ensures |c| == |p|
    ensures forall i :: 0 <= i < |p| ==> c[i] == Sum(p[..i + 1])
  {
    seq(|p|, i requires 0 <= i < |p| => Sum(p[..i + 1]))
  }

  /** np.searchsorted(cdf, u, side="right") on a sorted cdf: the number of
      entries that are at most u. */
  function SearchSortedRight(cdf: seq<real>, u: real): (k: nat)
    ensures k <= |cdf|
  {
    if cdf == [] then 0 else SearchSortedRight(cdf[..|cdf| - 1], u) + (if cdf[|cdf| - 1] <= u then 1 else 0)
  }

  predicate Nondecreasing(c: seq<real>)
  {
    forall i, j :: 0 <= i <= j < |c| ==> c[i] <= c[j]
  }

  /** The weights vectorized_choice uses: the given ones, else uniform. */
  function EffectiveWeights<T>(options: seq<T>, weights: Option<seq<real>>): (w: seq<real>)
    requires weights.Some? ==> Admissible(weights.value)
    ensures Admissible(w)
    ensures weights.None? ==> w == UniformWeights(|options|)
    ensures weights.Some? ==> w == weights.value
  {
    UniformAdmissible(|options|);
    if weights.None? then UniformWeights(|options|) else weights.value
  }

  /** The cumulative distribution vectorized_choice inverts. */
  function ChoiceCdf(w: seq<real>): (c: seq<real>)
    requires Admissible(w)
    ensures |c| == |w|
  {
    Cumsum(Pmf(w))
  }

  /** The option position a draw u selects: searchsorted(cdf, u, "right"). */
  function ChosenPosition<T>(options: seq<T>, weights: Option<seq<real>>, u: real): nat
    requires weights.Some? ==> Admissible(weights.value)
  {
    SearchSortedRight(ChoiceCdf(EffectiveWeights(options, weights)), u)
  }

  /** vectorized_choice: draw `nToChoose` options. Without a randomness
      stream, an additional key or a random seed must be given. The i-th
      draw probs(i) picks the option at searchsorted(cdf, probs(i), "right");
      np.take raises IndexError when that position is past the options. */
  function VectorizedChoice<T>(options: seq<T>, nToChoose: nat, hasStream: bool,
                               weights: Option<seq<real>>, additionalKey: Option<string>,
                               randomSeed: Option<int>, probs: nat -> real): (r: Result<seq<T>>)
    requires weights.Some? ==> Admissible(weights.value)
    ensures r.Err? && r.error.RuntimeError? <==> !hasStream && additionalKey.None? && randomSeed.None?
    ensures r.Ok? ==> |r.value| == nToChoose
    ensures r.Ok? ==> forall i :: 0 <= i < nToChoose ==>
      ChosenPosition(options, weights, probs(i)) < |options| &&
      r.value[i] == options[ChosenPosition(options, weights, probs(i))]
    ensures r.Err? && !r.error.RuntimeError? ==>
      r.error == IndexError &&
      (exists i :: 0 <= i < nToChoose && ChosenPosition(options, weights, probs(i)) >= |options|)
  {
    if !hasStream && additionalKey.None? && randomSeed.None? then
      Err(RuntimeError("additional_key and random_seed are required without a randomness stream"))
    else if forall i :: 0 <= i < nToChoose ==> ChosenPosition(options, weights, probs(i)) < |options| then
      Ok(seq(nToChoose, i requires 0 <= i < nToChoose => options[ChosenPosition(options, weights, probs(i))]))
    else
      Err(IndexError)
  }

  lemma {:induction false} SumUniform(n: nat, m: nat)
    requires m <= n && n > 0
    ensures Sum(UniformWeights(n)[..m]) == m as real / n as real
  {
    if m > 0 {
      assert UniformWeights(n)[..m][..m - 1] == UniformWeights(n)[..m - 1];
      SumUniform(n, m - 1);
    }
  }

  lemma UniformAdmissible(n: nat)
    ensures Admissible(UniformWeights(n))
  {
    if n > 0 {
      SumUniform(n, n);
      assert UniformWeights(n)[..n] == UniformWeights(n);
    }
  }

  lemma {:induction false} SumNonNegative(w: seq<real>)
    requires NonNegative(w)
    ensures Sum(w) >= 0.0
    decreases |w|
  {
    if w != [] { SumNonNegative(w[..|w| - 1]); }
  }

  /** Dividing every weight by s divides the total by s. */
  lemma {:induction false} SumDivided(w: seq<real>, s: real, n: nat)
    requires s != 0.0 && n <= |w|
    ensures Sum(seq(n, i requires 0 <= i < n => w[i] / s)) == Sum(w[..n]) / s
    decreases n
  {
    if n > 0 {
      var q := seq(n, i requires 0 <= i < n => w[i] / s);
      assert q[..n - 1] == seq(n - 1, i requires 0 <= i < n - 1 => w[i] / s);
      assert w[..n][..n - 1] == w[..n - 1];
      SumDivided(w, s, n - 1);
    }
  }

  /** The pmf of admissible, not all absent weights sums to 1. */
  lemma PmfSumsToOne(w: seq<real>)
    requires Admissible(w) && |w| > 0
    ensures Sum(Pmf(w)) == 1.0
  {
    SumDivided(w, Sum(w), |w|);
    assert w[..|w|] == w;
    assert Pmf(w) == seq(|w|, i requires 0 <= i < |w| => w[i] / Sum(w));
  }

  lemma {:induction false} SumPrefixMonotone(p: seq<real>, i: nat, j: nat)
    requires NonNegative(p) && i <= j <= |p|
    ensures Sum(p[..i]) <= Sum(p[..j])
    decreases j - i
  {
    if i < j {
      SumPrefixMonotone(p, i, j - 1);
      assert p[..j][..j - 1] == p[..j - 1];
    }
  }

  /** The cumulative sums of non-negative masses never decrease, and the
      last one is the total. */
  lemma CumsumProperties(p: seq<real>)
    requires NonNegative(p)
    ensures Nondecreasing(Cumsum(p))
    ensures |p| > 0 ==> Cumsum(p)[|p| - 1] == Sum(p)
  {
    var c := Cumsum(p);
    forall i, j | 0 <= i <= j < |p| ensures c[i] <= c[j] {
      assert c[i] == Sum(p[..i + 1]) && c[j] == Sum(p[..j + 1]);
      SumPrefixMonotone(p, i + 1, j + 1);
    }
    if |p| > 0 { assert p[..|p|] == p; }
  }

  lemma PmfNonNegative(w: seq<real>)
    requires Admissible(w)
    ensures NonNegative(Pmf(w))
  {
    if |w| > 0 { SumNonNegative(w); }
  }

  /** On a sorted cdf, searchsorted(side="right") finds the one slot whose
      left neighbour is at most u and whose own entry exceeds u. */
  lemma {:induction false} SearchSortedRightSlot(cdf: seq<real>, u: real, k: nat)
    requires Nondecreasing(cdf) && k <= |cdf|
    ensures SearchSortedRight(cdf, u) == k <==>
      (k == 0 || cdf[k - 1] <= u) && (k == |cdf| || u < cdf[k])
    decreases |cdf|
  {
    var n := |cdf|;
    if n > 0 {
      var init := cdf[..n - 1];
      assert Nondecreasing(init);
      if cdf[n - 1] <= u {
        // every entry is at most u
        CountAllAtMost(cdf, u);
      } else if k < n {
        SearchSortedRightSlot(init, u, k);
        if k < n - 1 { assert init[k] == cdf[k]; }
        if k > 0 { assert init[k - 1] == cdf[k - 1]; }
        if k == n - 1 { assert u < cdf[k]; }
      } else {
        assert u < cdf[n - 1];
      }
    }
  }

  lemma {:induction false} CountAllAtMost(cdf: seq<real>, u: real)
    requires Nondecreasing(cdf) && (cdf == [] || cdf[|cdf| - 1] <= u)
    ensures SearchSortedRight(cdf, u) == |cdf|
    decreases |cdf|
  {
    if cdf != [] {
      var init := cdf[..|cdf| - 1];
      assert Nondecreasing(init);
      if init != [] { assert init[|init| - 1] <= cdf[|cdf| - 1]; }
      CountAllAtMost(init, u);
    }
  }

  /** With admissible weights and a draw in [0, 1) the chosen position is a
      valid option position, and option k is chosen exactly when
      cdf[k-1] <= u < cdf[k]. */
  lemma ChosenOption(w: seq<real>, u: real, k: nat)
    requires Admissible(w) && |w| > 0 && 0.0 <= u < 1.0 && k < |w|
    ensures SearchSortedRight(ChoiceCdf(w), u) < |w|
    ensures SearchSortedRight(ChoiceCdf(w), u) == k <==>
      (k == 0 || ChoiceCdf(w)[k - 1] <= u) && u < ChoiceCdf(w)[k]
  {
    var cdf := ChoiceCdf(w);
    PmfNonNegative(w);
    CumsumProperties(Pmf(w));
    PmfSumsToOne(w);
    assert cdf[|w| - 1] == 1.0;
    SearchSortedRightSlot(cdf, u, k);
    var m := SearchSortedRight(cdf, u);
    SearchSortedRightSlot(cdf, u, m);
  }

  /** vectorized_choice succeeds whenever a stream, key or seed is given, the
      weights are admissible and there are as many options as weights (or no
      weights and at least one option), and every draw lies in [0, 1). */
  lemma VectorizedChoiceSucceeds<T>(options: seq<T>, nToChoose: nat, hasStream: bool,
                                    weights: Option<seq<real>>, additionalKey: Option<string>,
                                    randomSeed: Option<int>, probs: nat -> real)
    requires hasStream || additionalKey.Some? || randomSeed.Some?
    requires weights.Some? ==> Admissible(weights.value) && |weights.value| == |options|
    requires |options| > 0
    requires forall i :: 0 <= i < nToChoose ==> 0.0 <= probs(i) < 1.0
    ensures VectorizedChoice(options, nToChoose, hasStream, weights, additionalKey, randomSeed, probs).Ok?
  {
    var w := EffectiveWeights(options, weights);
    forall i | 0 <= i < nToChoose ensures ChosenPosition(options, weights, probs(i)) < |options| {
      ChosenOption(w, probs(i), 0);
    }
  }

  // ---------------------------------------------------------------------
  // Selecting the cells to noise

  /** index[mask]: the labels whose mask entry is set, in order. */
  function SelectWhere(index: seq<Label>, mask: seq<bool>): (r: seq<Label>)
    requires |index| == |mask|
    ensures |r| <= |index|
    ensures forall l :: l in r ==> l in index
    decreases |index|
  {
    if index == [] then []
    else (if mask[0] then [index[0]] else []) + SelectWhere(index[1..], mask[1..])
  }

  /** On an increasing index, index[mask] is increasing and holds exactly
      the labels at the positions the mask sets. */
  lemma {:induction false} SelectWhereSpec(index: seq<Label>, mask: seq<bool>)
    requires |index| == |mask| && Increasing(index)
    ensures Increasing(SelectWhere(index, mask))
    ensures forall j :: 0 <= j < |index| ==> (index[j] in SelectWhere(index, mask) <==> mask[j])
    decreases |index|
  {
    if index != [] {
      var tail := index[1..];
      assert Increasing(tail);
      SelectWhereSpec(tail, mask[1..]);
      var rest := SelectWhere(tail, mask[1..]);
      forall l | l in rest ensures l > index[0] {
        var j :| 0 <= j < |tail| && tail[j] == l;
        assert index[j + 1] == l;
      }
      if mask[0] { PrependIncreasing(index[0], rest); }
      forall j | 1 <= j < |index| ensures index[j] in SelectWhere(index, mask) <==> mask[j] {
        assert index[j] == tail[j - 1] && mask[j] == mask[1..][j - 1];
        assert index[j] != index[0];
      }
    }
  }

  lemma PrependIncreasing(x: Label, s: seq<Label>)
    requires Increasing(s) && forall l :: l in s ==> l > x
    ensures Increasing([x] + s)
  {
    var r := [x] + s;
    forall i, j | 0 <= i < j < |r| ensures r[i] < r[j] {
      assert r[j] == s[j - 1] && s[j - 1] in s;
      if i > 0 { assert r[i] == s[i - 1]; }
    }
  }

  /** column.index[(column != "") & column.notna()]: the labels of cells
      that are not missing. */
  function NotEmptyIndex(column: Series): (r: seq<Label>)
    requires column.Valid()
    ensures Increasing(r) && forall l :: l in r ==> l in column.index
    ensures forall j :: 0 <= j < |column.index| ==> (column.index[j] in r <==> !IsMissing(column.values[j]))
  {
    var mask := seq(|column.values|, j requires 0 <= j < |column.values| => !IsMissing(column.values[j]));
    SelectWhereSpec(column.index, mask);
    SelectWhere(column.index, mask)
  }

  /** RandomnessStream.filter_for_probability: keep the labels whose draw is
      below their probability. A NaN probability is passed as 0.0, which no
      draw is below. */
  function FilterForProbability(index: seq<Label>, level: Label -> real, u: Label -> real): (r: seq<Label>)
    requires Increasing(index)
    ensures Increasing(r) && forall l :: l in r ==> l in index
    ensures forall j :: 0 <= j < |index| ==> (index[j] in r <==> u(index[j]) < level(index[j]))
  {
    var mask := seq(|index|, j requires 0 <= j < |index| => u(index[j]) < level(index[j]));
    SelectWhereSpec(index, mask);
    SelectWhere(index, mask)
  }

  /** get_index_to_noise: among the cells that are neither "" nor NA, the
      labels whose draw is below the noise level. */
  function GetIndexToNoise(column: Series, level: Label -> real, u: Label -> real): (r: seq<Label>)
    requires column.Valid()
    ensures Increasing(r) && forall l :: l in r ==> l in column.index
    ensures forall j :: 0 <= j < |column.index| ==>
      (column.index[j] in r <==> !IsMissing(column.values[j]) && u(column.index[j]) < level(column.index[j]))
  {
    var eligible := NotEmptyIndex(column);
    var r := FilterForProbability(eligible, level, u);
    assert forall j :: 0 <= j < |column.index| && column.index[j] in r ==> column.index[j] in eligible;
    r
  }

  /** Only cells that are neither "" nor NA are ever selected. */
  lemma IndexToNoiseNeverMissing(column: Series, level: Label -> real, u: Label -> real, j: nat)
    requires column.Valid() && j < |column.index|
    requires IsMissing(column.values[j])
    ensures column.index[j] !in GetIndexToNoise(column, level, u)
  {
  }

  /** A noise level of 0 or less selects nothing. */
  lemma IndexToNoiseNone(column: Series, level: Label -> real, u: Label -> real)
    requires column.Valid()
    requires (forall l :: level(l) <= 0.0) && (forall l :: 0.0 <= u(l))
    ensures GetIndexToNoise(column, level, u) == []
  {
    var e := NotEmptyIndex(column);
    var mask := seq(|e|, j requires 0 <= j < |e| => u(e[j]) < level(e[j]));
    forall j | 0 <= j < |e| ensures !mask[j] {
      var l := e[j];
      assert level(l) <= 0.0;
      assert 0.0 <= u(l);
    }
    SelectWhereConstant(e, mask, false);
    assert FilterForProbability(e, level, u) == SelectWhere(e, mask);
  }

  /** A noise level of 1 or more selects every cell that is not missing
      (draws lie in [0, 1)). */
  lemma IndexToNoiseAll(column: Series, level: Label -> real, u: Label -> real)
    requires column.Valid()
    requires (forall l :: level(l) >= 1.0) && (forall l :: u(l) < 1.0)
    ensures GetIndexToNoise(column, level, u) == NotEmptyIndex(column)
  {
    var e := NotEmptyIndex(column);
    var mask := seq(|e|, j requires 0 <= j < |e| => u(e[j]) < level(e[j]));
    forall j | 0 <= j < |e| ensures mask[j] {
      var l := e[j];
      assert level(l) >= 1.0;
      assert u(l) < 1.0;
    }
    SelectWhereConstant(e, mask, true);
    assert FilterForProbability(e, level, u) == SelectWhere(e, mask);
  }

  /** An all-false mask selects nothing; an all-true mask selects everything. */
  lemma {:induction false} SelectWhereConstant(index: seq<Label>, mask: seq<bool>, b: bool)
    requires |index| == |mask| && forall j :: 0 <= j < |mask| ==> mask[j] == b
    ensures SelectWhere(index, mask) == if b then index else []
    decreases |index|
  {
    if index != [] {
      SelectWhereConstant(index[1..], mask[1..], b);
    }
  }
}
