/**
 The cropped t-test: Welch's statistic over the pooled percentile crops.  A statistic
 is kept as its difference of means and the variance under the root, so that magnitudes
 are compared by their squares and no root is needed; a zero variance is the case the
 code's finiteness test throws out.
 */
module CroppedT {
  import opened Basics
  import opened Welford

  /** `t == diff / sqrt(variance)`. */
  datatype Stat = Stat(diff: real, variance: real)
  {
    /** The square of t, which orders statistics by magnitude. */
    function Squared(): real
      requires variance > 0.0
    {
      diff * diff / variance
    }
  }

  /** Welch's statistic by the two-pass mean and variance, undefined where a variance is. */
  function Welch(a: seq<real>, b: seq<real>): (r: Option<Stat>)
    ensures r.Some? ==> r.value.variance > 0.0
  {
    if |a| < 2 || |b| < 2 then None else
    var v := Deviations(a) / (|a| - 1) as real / |a| as real + Deviations(b) / (|b| - 1) as real / |b| as real;
    if v > 0.0 then Some(Stat(Mean(a) - Mean(b), v)) else None
  }

  // ---------------------------------------------------------------- pooling

  predicate Sorted(xs: seq<real>) {
    forall i :: 0 < i < |xs| ==> xs[i - 1] <= xs[i]
  }

  lemma {:induction false} SortedApart(xs: seq<real>, i: nat, j: nat)
    requires Sorted(xs) && i <= j < |xs|
    ensures xs[i] <= xs[j]
    decreases j - i
  {
    if i < j {
      SortedApart(xs, i, j - 1);
    }
  }

  function Insert(x: real, xs: seq<real>): (r: seq<real>)
    requires Sorted(xs)
    ensures |r| == |xs| + 1 && Sorted(r)
    ensures r[0] == x || (xs != [] && r[0] == xs[0])
  {
    if xs == [] || x <= xs[0] then [x] + xs else [xs[0]] + Insert(x, xs[1..])
  }

  lemma {:induction false} InsertBag(x: real, xs: seq<real>)
    requires Sorted(xs)
    ensures multiset(Insert(x, xs)) == multiset(xs) + multiset{x}
  {
    if !(xs == [] || x <= xs[0]) {
      InsertBag(x, xs[1..]);
      assert xs == [xs[0]] + xs[1..];
    }
  }

  /** Both classes, sorted. */
  function Sort(xs: seq<real>): (r: seq<real>)
    ensures |r| == |xs| && Sorted(r)
  {
    if xs == [] then [] else Insert(xs[0], Sort(xs[1..]))
  }

  lemma HeadBag(xs: seq<real>)
    requires xs != []
    ensures multiset(xs) == multiset(xs[1..]) + multiset{xs[0]}
  {
    assert xs == [xs[0]] + xs[1..];
  }

  lemma {:induction false} SortBag(xs: seq<real>)
    ensures multiset(Sort(xs)) == multiset(xs)
  {
    if xs != [] {
      SortBag(xs[1..]);
      InsertBag(xs[0], Sort(xs[1..]));
      HeadBag(xs);
    }
  }

  // ---------------------------------------------------------------- crops

  const PERCENTILES: seq<real> := [1.0, 0.7, 0.5, 0.3, 0.2, 0.1, 0.05, 0.02, 0.01]

  function Ceiling(x: real): (n: int)
    ensures x <= n as real < x + 1.0
  {
    -((-x).Floor)
  }

  /** How many pooled samples a crop keeps. */
  function Keep(total: nat, pct: real): (k: nat)
    requires pct >= 0.0
    ensures k <= total
    ensures k < total ==> total as real * pct <= k as real
    ensures k > 0 ==> (k - 1) as real < total as real * pct
  {
    var c := Ceiling(total as real * pct);
    if c <= total then (if c < 0 then 0 else c) else total
  }

  function Below(xs: seq<real>, cutoff: real): (r: seq<real>)
    ensures forall x :: x in r <==> x in xs && x <= cutoff
  {
    if xs == [] then []
    else
      var rest := Below(xs[..|xs| - 1], cutoff);
      if xs[|xs| - 1] <= cutoff then rest + [xs[|xs| - 1]] else rest
  }

  /** What a crop leaves of the two classes. */
  function Kept(class0: seq<real>, class1: seq<real>, pct: real): (seq<real>, seq<real>)
    requires pct >= 0.0 && Keep(|class0| + |class1|, pct) >= 1
  {
    var cutoff := Sort(class0 + class1)[Keep(|class0| + |class1|, pct) - 1];
    (Below(class0, cutoff), Below(class1, cutoff))
  }

  /** One crop: none when too little is left or the statistic is not finite. */
  function Crop(class0: seq<real>, class1: seq<real>, pct: real): (r: Option<Stat>)
    requires pct >= 0.0
    ensures r.Some? ==> r.value.variance > 0.0
  {
    if Keep(|class0| + |class1|, pct) < 4 then None
    else
      var (a, b) := Kept(class0, class1, pct);
      if |a| < 2 || |b| < 2 then None else Welch(a, b)
  }

  predicate Dominates(best: Option<Stat>, t: Option<Stat>)
    requires best.Some? ==> best.value.variance > 0.0
    requires t.Some? ==> t.value.variance > 0.0
  {
    t.Some? ==> best.Some? && t.value.Squared() <= best.value.Squared()
  }

  /** One class accumulated below the cutoff. */
  method Accumulate(xs: seq<real>, cutoff: real) returns (acc: Accumulator)
    ensures fresh(acc) && acc.Valid() && acc.pushed == Below(xs, cutoff)
  {
    acc := new Accumulator();
    var i := 0;
    while i < |xs|
      invariant 0 <= i <= |xs| && acc.Valid() && fresh(acc)
      invariant acc.pushed == Below(xs[..i], cutoff)
    {
      assert xs[..i + 1][..i] == xs[..i];
      if xs[i] <= cutoff {
        acc.PushSample(xs[i]);
      }
      i := i + 1;
    }
    assert xs[..i] == xs;
  }

  /** The squared standard error of a mean. */
  function ErrorSquared(xs: seq<real>): real
    requires |xs| >= 2
  {
    Deviations(xs) / (|xs| * (|xs| - 1)) as real
  }

  lemma DivideTwice(x: real, p: nat, q: nat)
    requires p > 0 && q > 0 && x >= 0.0
    ensures x / p as real / q as real == x / (q * p) as real
    ensures x / p as real / q as real >= 0.0
    ensures x / p as real / q as real == 0.0 <==> x == 0.0
  {
    var y := x / p as real;
    var z := y / q as real;
    assert y * p as real == x;
    assert z * q as real == y;
    assert (q * p) as real == q as real * p as real;
    assert z * (q as real * p as real) == x;
    Quotient(z, (q * p) as real, x);
  }

  lemma Quotient(z: real, d: real, x: real)
    requires d > 0.0 && z * d == x && x >= 0.0
    ensures z == x / d && z >= 0.0 && (z == 0.0 <==> x == 0.0)
  {
    assert z * d / d == z;
  }

  lemma WelchIs(a: seq<real>, b: seq<real>)
    ensures Welch(a, b).None? <==> |a| < 2 || |b| < 2 || (Deviations(a) == 0.0 && Deviations(b) == 0.0)
    ensures Welch(a, b).Some? ==> Welch(a, b).value == Stat(Mean(a) - Mean(b), ErrorSquared(a) + ErrorSquared(b))
  {
    hide Deviations, Mean;
    WelfordIsTwoPass(a);
    WelfordIsTwoPass(b);
    if |a| >= 2 && |b| >= 2 {
      DivideTwice(Deviations(a), |a| - 1, |a|);
      DivideTwice(Deviations(b), |b| - 1, |b|);
    }
  }

  /** Welch's statistic from two accumulators. */
  method WelchT(a: Accumulator, b: Accumulator) returns (t: Option<Stat>)
    requires a.Valid() && b.Valid()
    ensures t == Welch(a.pushed, b.pushed)
    ensures t.None? <==>
              |a.pushed| < 2 || |b.pushed| < 2 || (Deviations(a.pushed) == 0.0 && Deviations(b.pushed) == 0.0)
    ensures t.Some? ==> t.value.diff == Mean(a.pushed) - Mean(b.pushed)
    ensures t.Some? ==> t.value.variance == ErrorSquared(a.pushed) + ErrorSquared(b.pushed)
  {
    WelchIs(a.pushed, b.pushed);
    WelfordIsTwoPass(a.pushed);
    WelfordIsTwoPass(b.pushed);
    var definedA, va := a.Variance();
    var definedB, vb := b.Variance();
    if !definedA || !definedB {
      return None;
    }
    var v := va / a.n as real + vb / b.n as real;
    if v > 0.0 {
      t := Some(Stat(a.mean - b.mean, v));
    } else {
      t := None;
    }
  }

  method CropT(class0: seq<real>, class1: seq<real>, pooled: seq<real>, pct: real) returns (t: Option<Stat>)
    requires pct >= 0.0 && pooled == Sort(class0 + class1)
    ensures t == Crop(class0, class1, pct)
    ensures t.Some? <==>
              && Keep(|class0| + |class1|, pct) >= 4
              && var (a, b) := Kept(class0, class1, pct);
                 |a| >= 2 && |b| >= 2 && !(Deviations(a) == 0.0 && Deviations(b) == 0.0)
    ensures t.Some? ==> var (a, b) := Kept(class0, class1, pct);
              t.value == Stat(Mean(a) - Mean(b), ErrorSquared(a) + ErrorSquared(b))
  {
    hide Sort, Keep, Below, Deviations, Mean, Welch;
    var keep := Keep(|pooled|, pct);
    if keep < 4 {
      return None;
    }
    var cutoff := pooled[keep - 1];
    var a := Accumulate(class0, cutoff);
    var b := Accumulate(class1, cutoff);
    WelfordIsTwoPass(a.pushed);
    WelfordIsTwoPass(b.pushed);
    if a.n < 2 || b.n < 2 {
      return None;
    }
    WelchIs(a.pushed, b.pushed);
    t := WelchT(a, b);
  }

  /** The `i`th crop gives this statistic, and every earlier one a smaller or none. */
  predicate FirstBest(class0: seq<real>, class1: seq<real>, best: Stat, i: nat)
    requires i < |PERCENTILES| && best.variance > 0.0
  {
    && Crop(class0, class1, PERCENTILES[i]) == Some(best)
    && forall k :: 0 <= k < i && Crop(class0, class1, PERCENTILES[k]).Some? ==>
         Crop(class0, class1, PERCENTILES[k]).value.Squared() < best.Squared()
  }

  /** The statistic of largest magnitude: the first such of the crops', dominating every usable one. */
  method MaxCroppedT(class0: seq<real>, class1: seq<real>) returns (best: Option<Stat>)
    ensures best.Some? ==> best.value.variance > 0.0
    ensures best.Some? ==> exists i :: 0 <= i < |PERCENTILES| && FirstBest(class0, class1, best.value, i)
    ensures forall i :: 0 <= i < |PERCENTILES| ==> Dominates(best, Crop(class0, class1, PERCENTILES[i]))
  {
    hide Crop, Stat.Squared, Sort, Keep, Below, Ceiling, Welch, Kept, Deviations, Mean, ErrorSquared;
    var pooled := Sort(class0 + class1);
    best := None;
    var i := 0;
    while i < |PERCENTILES|
      invariant 0 <= i <= |PERCENTILES|
      invariant best.Some? ==> best.value.variance > 0.0
      invariant best.Some? ==> exists k :: 0 <= k < i && FirstBest(class0, class1, best.value, k)
      invariant forall k :: 0 <= k < i ==> Dominates(best, Crop(class0, class1, PERCENTILES[k]))
    {
      var t := CropT(class0, class1, pooled, PERCENTILES[i]);
      if t.Some? && (best.None? || t.value.Squared() > best.value.Squared()) {
        best := t;
        assert FirstBest(class0, class1, best.value, i);
      }
      i := i + 1;
    }
  }

  // ---------------------------------------------------------------- what the crops are

  lemma {:induction false} BelowAppend(a: seq<real>, b: seq<real>, cutoff: real)
    ensures Below(a + b, cutoff) == Below(a, cutoff) + Below(b, cutoff)
  {
    if b == [] {
      assert a + b == a;
    } else {
      var k := |b| - 1;
      assert (a + b)[..|a + b| - 1] == a + b[..k];
      BelowAppend(a, b[..k], cutoff);
    }
  }

  lemma {:induction false} BelowPermutes(xs: seq<real>, ys: seq<real>, cutoff: real)
    requires multiset(xs) == multiset(ys)
    ensures |Below(xs, cutoff)| == |Below(ys, cutoff)|
    decreases |xs|
  {
    assert |multiset(xs)| == |xs| && |multiset(ys)| == |ys|;
    if xs != [] {
      var k := |xs| - 1;
      var i := Find(ys, xs[k], multiset(xs));
      assert xs[..k] + xs[k + 1..] == xs[..k];
      Remove(xs, k);
      Remove(ys, i);
      BelowPermutes(xs[..k], ys[..i] + ys[i + 1..], cutoff);
      BelowWithout(ys, i, cutoff);
    }
  }

  lemma BelowWithout(ys: seq<real>, i: nat, cutoff: real)
    requires i < |ys|
    ensures |Below(ys, cutoff)| == |Below(ys[..i] + ys[i + 1..], cutoff)| + if ys[i] <= cutoff then 1 else 0
  {
    var left, x, right := ys[..i], ys[i], ys[i + 1..];
    assert ys == left + [x] + right;
    assert [x][..0] == [];
    BelowAppend(left + [x], right, cutoff);
    BelowAppend(left, [x], cutoff);
    BelowAppend(left, right, cutoff);
  }

  lemma {:induction false} BelowAll(xs: seq<real>, cutoff: real)
    requires forall i :: 0 <= i < |xs| ==> xs[i] <= cutoff
    ensures Below(xs, cutoff) == xs
  {
    if xs != [] {
      BelowAll(xs[..|xs| - 1], cutoff);
      assert xs == xs[..|xs| - 1] + [xs[|xs| - 1]];
    }
  }

  lemma PrefixBelow(xs: seq<real>, keep: nat)
    requires Sorted(xs) && 1 <= keep <= |xs|
    ensures |Below(xs, xs[keep - 1])| >= keep
  {
    var cutoff := xs[keep - 1];
    forall i | 0 <= i < keep ensures xs[..keep][i] <= cutoff {
      SortedApart(xs, i, keep - 1);
    }
    assert xs == xs[..keep] + xs[keep..];
    BelowAppend(xs[..keep], xs[keep..], cutoff);
    BelowAll(xs[..keep], cutoff);
  }

  lemma PooledBelow(class0: seq<real>, class1: seq<real>, cutoff: real)
    ensures |Below(class0, cutoff)| + |Below(class1, cutoff)| == |Below(Sort(class0 + class1), cutoff)|
  {
    BelowAppend(class0, class1, cutoff);
    SortBag(class0 + class1);
    BelowPermutes(class0 + class1, Sort(class0 + class1), cutoff);
  }

  /** Cutting both classes at the pooled cutoff keeps at least as many samples as asked. */
  lemma CropKeepsEnough(class0: seq<real>, class1: seq<real>, keep: nat)
    requires 1 <= keep <= |class0| + |class1|
    ensures var pooled := Sort(class0 + class1);
            && |pooled| == |class0| + |class1|
            && |Below(class0, pooled[keep - 1])| + |Below(class1, pooled[keep - 1])| >= keep
  {
    var pooled := Sort(class0 + class1);
    PrefixBelow(pooled, keep);
    PooledBelow(class0, class1, pooled[keep - 1]);
  }

  lemma {:induction false} BelowTwice(xs: seq<real>, high: real, low: real)
    requires low <= high
    ensures Below(Below(xs, high), low) == Below(xs, low)
  {
    if xs != [] {
      var init, x := xs[..|xs| - 1], xs[|xs| - 1];
      BelowTwice(init, high, low);
      if x <= high {
        assert (Below(init, high) + [x])[..|Below(init, high)|] == Below(init, high);
      }
    }
  }

  lemma ScaleMonotone(t: real, p: real, q: real)
    requires 0.0 <= t && p <= q
    ensures t * p <= t * q
  {}

  lemma CeilingMonotone(x: real, y: real)
    requires x <= y
    ensures Ceiling(x) <= Ceiling(y)
  {}

  lemma KeepMonotone(total: nat, p: real, q: real)
    requires 0.0 <= p <= q
    ensures Keep(total, p) <= Keep(total, q)
  {
    hide Ceiling;
    ScaleMonotone(total as real, p, q);
    CeilingMonotone(total as real * p, total as real * q);
  }

  /** `kept` is what of `xs` lies at or below `c`, each value as often. */
  ghost predicate CutAt(xs: seq<real>, kept: seq<real>, c: real) {
    forall x: real :: multiset(kept)[x] == if x <= c then multiset(xs)[x] else 0
  }

  lemma {:induction false} BelowCuts(xs: seq<real>, c: real)
    ensures CutAt(xs, Below(xs, c), c)
  {
    if xs != [] {
      BelowCuts(xs[..|xs| - 1], c);
      assert xs == xs[..|xs| - 1] + [xs[|xs| - 1]];
    }
  }

  lemma CutCounts(xs: seq<real>, a: seq<real>, b: seq<real>, c: real)
    requires CutAt(xs, a, c) && CutAt(xs, b, c)
    ensures |a| == |b|
  {
    forall x: real ensures multiset(a)[x] == multiset(b)[x] {
      assert multiset(a)[x] == if x <= c then multiset(xs)[x] else 0;
    }
    assert multiset(a) <= multiset(b) && multiset(b) <= multiset(a);
    assert multiset(a) == multiset(b);
    assert |multiset(a)| == |a| && |multiset(b)| == |b|;
  }

  lemma {:induction false} BelowNone(xs: seq<real>, c: real)
    requires forall i :: 0 <= i < |xs| ==> xs[i] > c
    ensures Below(xs, c) == []
  {
    if xs != [] {
      BelowNone(xs[..|xs| - 1], c);
    }
  }

  lemma {:induction false} BelowShort(xs: seq<real>, c: real)
    ensures |Below(xs, c)| <= |xs|
  {
    if xs != [] {
      BelowShort(xs[..|xs| - 1], c);
    }
  }

  /** Below a value under the cutoff lie fewer samples than are to be kept. */
  lemma FewBelow(xs: seq<real>, keep: nat, d: real)
    requires Sorted(xs) && 1 <= keep <= |xs| && d < xs[keep - 1]
    ensures |Below(xs, d)| < keep
  {
    hide Below;
    var low, high := xs[..keep - 1], xs[keep - 1..];
    forall i | 0 <= i < |high| ensures high[i] > d {
      SortedApart(xs, keep - 1, keep - 1 + i);
    }
    assert xs == low + high;
    BelowAppend(low, high, d);
    BelowNone(high, d);
    BelowShort(low, d);
  }

  /** A crop cuts both classes at one value, the least sample that leaves as many
      samples as are to be kept. */
  lemma KeptIsOneCut(class0: seq<real>, class1: seq<real>, pct: real) returns (c: real)
    requires pct >= 0.0 && Keep(|class0| + |class1|, pct) >= 1
    ensures var keep, kept := Keep(|class0| + |class1|, pct), Kept(class0, class1, pct);
            && c in class0 + class1
            && CutAt(class0, kept.0, c) && CutAt(class1, kept.1, c)
            && |kept.0| + |kept.1| >= keep
            && forall d: real, a: seq<real>, b: seq<real> :: d < c && CutAt(class0, a, d) && CutAt(class1, b, d) ==>
                 |a| + |b| < keep
  {
    hide Keep, Below, Sort, CutAt, Sorted;
    var keep, pooled := Keep(|class0| + |class1|, pct), Sort(class0 + class1);
    c := pooled[keep - 1];
    SortBag(class0 + class1);
    assert c in multiset(pooled);
    BelowCuts(class0, c);
    BelowCuts(class1, c);
    CropKeepsEnough(class0, class1, keep);
    forall d: real, a: seq<real>, b: seq<real> | d < c && CutAt(class0, a, d) && CutAt(class1, b, d)
      ensures |a| + |b| < keep
    {
      BelowCuts(class0, d);
      BelowCuts(class1, d);
      CutCounts(class0, a, Below(class0, d), d);
      CutCounts(class1, b, Below(class1, d), d);
      PooledBelow(class0, class1, d);
      FewBelow(pooled, keep, d);
    }
  }

  /** The crops are nested: a smaller percentile crops each class further, from what the
      larger one left, again at one value for both. */
  lemma CropsNested(class0: seq<real>, class1: seq<real>, p: real, q: real) returns (c: real)
    requires 0.0 <= p <= q && Keep(|class0| + |class1|, p) >= 1
    ensures Keep(|class0| + |class1|, p) <= Keep(|class0| + |class1|, q)
    ensures var small, large := Kept(class0, class1, p), Kept(class0, class1, q);
            && CutAt(class0, small.0, c) && CutAt(class1, small.1, c)
            && CutAt(large.0, small.0, c) && CutAt(large.1, small.1, c)
  {
    hide Keep, Ceiling, Below, Sort, CutAt;
    var total := |class0| + |class1|;
    KeepMonotone(total, p, q);
    var pooled := Sort(class0 + class1);
    var i, j := Keep(total, p), Keep(total, q);
    SortedApart(pooled, i - 1, j - 1);
    c := pooled[i - 1];
    BelowTwice(class0, pooled[j - 1], c);
    BelowTwice(class1, pooled[j - 1], c);
    BelowCuts(class0, c);
    BelowCuts(class1, c);
    BelowCuts(Below(class0, pooled[j - 1]), c);
    BelowCuts(Below(class1, pooled[j - 1]), c);
  }

  lemma KeepAll(total: nat)
    ensures Keep(total, 1.0) == total
  {}

  lemma {:induction false} BelowAllBag(xs: seq<real>, ys: seq<real>, c: real)
    requires multiset(xs) <= multiset(ys) && forall i :: 0 <= i < |ys| ==> ys[i] <= c
    ensures Below(xs, c) == xs
  {
    forall i | 0 <= i < |xs| ensures xs[i] <= c {
      assert xs[i] in multiset(xs) && xs[i] in multiset(ys);
    }
    BelowAll(xs, c);
  }

  /** The first of the crops is the full data. */
  lemma FullDataFirst(class0: seq<real>, class1: seq<real>)
    requires class0 + class1 != []
    ensures Keep(|class0| + |class1|, PERCENTILES[0]) == |class0| + |class1|
    ensures Kept(class0, class1, PERCENTILES[0]) == (class0, class1)
  {
    hide Keep, Below, Sort;
    var total := |class0| + |class1|;
    var pooled := Sort(class0 + class1);
    KeepAll(total);
    SortBag(class0 + class1);
    forall i | 0 <= i < total ensures pooled[i] <= pooled[total - 1] {
      SortedApart(pooled, i, total - 1);
    }
    BelowAllBag(class0, pooled, pooled[total - 1]);
    BelowAllBag(class1, pooled, pooled[total - 1]);
  }
}
