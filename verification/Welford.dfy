/**
 Online mean and variance (Welford) over the reals, against the two-pass forms.

 The algebra is done in lemmas over plain numbers; the inductions over samples only
 put those together and hide every definition while doing so.
 */
module Welford {

  // ---------------------------------------------------------------- two passes

  /** The sum of `f` over the samples. */
  function Total(xs: seq<real>, f: real -> real): real {
    if xs == [] then 0.0 else Total(xs[..|xs| - 1], f) + f(xs[|xs| - 1])
  }

  function Value(): real -> real {
    (x: real) => x
  }

  function Distance(c: real): real -> real {
    (x: real) => (x - c) * (x - c)
  }

  function Sum(xs: seq<real>): real {
    Total(xs, Value())
  }

  function Mean(xs: seq<real>): real
    requires xs != []
  {
    Sum(xs) / |xs| as real
  }

  /** The sum of squared distances from `c`. */
  function Spread(xs: seq<real>, c: real): real {
    Total(xs, Distance(c))
  }

  /** The sum of squared deviations from the mean. */
  function Deviations(xs: seq<real>): real {
    if xs == [] then 0.0 else Spread(xs, Mean(xs))
  }

  lemma DistanceNonNegative(c: real, x: real)
    ensures Distance(c)(x) >= 0.0
  {}

  lemma {:induction false} SpreadNonNegative(xs: seq<real>, c: real)
    ensures Total(xs, Distance(c)) >= 0.0
  {
    if xs != [] {
      SpreadNonNegative(xs[..|xs| - 1], c);
      DistanceNonNegative(c, xs[|xs| - 1]);
    }
  }

  lemma LastSample(xs: seq<real>, c: real)
    requires xs != []
    ensures Sum(xs) == Sum(xs[..|xs| - 1]) + xs[|xs| - 1]
    ensures Spread(xs, c) == Spread(xs[..|xs| - 1], c) + Distance(c)(xs[|xs| - 1])
  {}

  lemma NoSample(xs: seq<real>, c: real)
    requires xs == []
    ensures Sum(xs) == 0.0 && Spread(xs, c) == 0.0
  {}

  /** Moving the centre from the origin to `c`. */
  predicate Moved(spread: real, squares: real, sum: real, n: nat, c: real) {
    spread == squares - 2.0 * (c * sum) + n as real * (c * c)
  }

  lemma MovedNext(spread: real, squares: real, sum: real, n: nat, c: real, x: real,
                  spread': real, squares': real, sum': real, n': nat)
    requires Moved(spread, squares, sum, n, c)
    requires spread' == spread + Distance(c)(x) && squares' == squares + Distance(0.0)(x)
    requires sum' == sum + x && n' == n + 1
    ensures Moved(spread', squares', sum', n', c)
  {
    assert (x - c) * (x - c) == x * x - 2.0 * (c * x) + c * c;
    assert c * (sum + x) == c * sum + c * x;
    assert (n + 1) as real == n as real + 1.0;
    assert (n as real + 1.0) * (c * c) == n as real * (c * c) + c * c;
  }

  lemma MovedNone(c: real, spread: real, squares: real, sum: real, n: nat)
    requires spread == 0.0 && squares == 0.0 && sum == 0.0 && n == 0
    ensures Moved(spread, squares, sum, n, c)
  {}

  lemma {:induction false} SpreadAbout(xs: seq<real>, c: real)
    ensures Moved(Spread(xs, c), Spread(xs, 0.0), Sum(xs), |xs|, c)
  {
    hide *;
    if xs == [] {
      NoSample(xs, c);
      NoSample(xs, 0.0);
      MovedNone(c, Spread(xs, c), Spread(xs, 0.0), Sum(xs), |xs|);
    } else {
      var init := xs[..|xs| - 1];
      SpreadAbout(init, c);
      LastSample(xs, c);
      LastSample(xs, 0.0);
      MovedNext(Spread(init, c), Spread(init, 0.0), Sum(init), |init|, c, xs[|xs| - 1],
                Spread(xs, c), Spread(xs, 0.0), Sum(xs), |xs|);
    }
  }

  // ---------------------------------------------------------------- online

  datatype Acc = Acc(n: nat, mean: real, m2: real)

  const ZERO := Acc(0, 0.0, 0.0)

  function Push(a: Acc, x: real): Acc {
    var n := a.n + 1;
    var delta := x - a.mean;
    var mean := a.mean + delta / n as real;
    Acc(n, mean, a.m2 + delta * (x - mean))
  }

  function PushAll(xs: seq<real>): Acc {
    if xs == [] then ZERO else Push(PushAll(xs[..|xs| - 1]), xs[|xs| - 1])
  }

  lemma LastPush(xs: seq<real>)
    requires xs != []
    ensures PushAll(xs) == Push(PushAll(xs[..|xs| - 1]), xs[|xs| - 1])
  {}

  lemma NoPush(xs: seq<real>)
    requires xs == []
    ensures PushAll(xs) == ZERO
  {}

  /** One update, in terms of the step `e` the mean takes. */
  lemma PushStep(n: real, m: real, q: real, x: real, e: real)
    requires x - m == e * (n + 1.0)
    ensures (m + e) * (n + 1.0) == m * n + x
    ensures x - (m + e) == e * n
    ensures (q - m * m * n) + (x - m) * (x - (m + e)) == (q + x * x) - (m + e) * (m + e) * (n + 1.0)
  {
    var d := e * (n + 1.0);
    assert x == m + d;
    assert d == e * n + e;
    assert x - (m + e) == e * n;
    assert (m + e) * (n + 1.0) == m * n + m + d;
    assert x * x == m * m + 2.0 * (m * d) + d * d;
    Expand(m, e, n, d);
  }

  lemma Expand(m: real, e: real, n: real, d: real)
    requires d == e * n + e
    ensures (m + e) * (m + e) * (n + 1.0) == m * m * n + m * m + 2.0 * (m * d) + e * d
    ensures d * d - e * d == d * (e * n)
  {
    assert (m + e) * (m + e) == m * m + 2.0 * (m * e) + e * e;
    assert (m * m + 2.0 * (m * e) + e * e) * (n + 1.0)
        == m * m * (n + 1.0) + 2.0 * (m * e) * (n + 1.0) + e * e * (n + 1.0);
    assert 2.0 * (m * e) * (n + 1.0) == 2.0 * (m * (e * (n + 1.0)));
    assert e * e * (n + 1.0) == e * (e * (n + 1.0));
    assert e * (n + 1.0) == d;
  }

  lemma Divide(a: real, b: real)
    requires b > 0.0
    ensures a / b * b == a
  {}

  lemma SameQuotient(a: real, b: real, n: real)
    requires n > 0.0 && a * n == b * n
    ensures a == b
  {
    assert (a - b) * n == 0.0;
  }

  /** The accumulator in closed form: the mean by the sum, the deviations by the squares. */
  predicate ClosedForm(a: Acc, n: nat, sum: real, squares: real) {
    a.n == n && a.mean * n as real == sum && a.m2 == squares - a.mean * sum
  }

  lemma PushClosed(a: Acc, x: real, n: nat, sum: real, squares: real)
    requires ClosedForm(a, n, sum, squares)
    ensures ClosedForm(Push(a, x), n + 1, sum + x, squares + x * x)
  {
    var n := a.n as real;
    var m := a.mean;
    var e := (x - m) / (n + 1.0);
    Divide(x - m, n + 1.0);
    PushStep(n, m, squares, x, e);
    assert (a.n + 1) as real == n + 1.0;
    assert m * sum == m * m * n;
    assert (m + e) * (sum + x) == (m + e) * (m + e) * (n + 1.0);
  }

  /** The next closed form, whatever the parts are called. */
  lemma ClosedNext(a: Acc, n: nat, sum: real, squares: real, x: real,
                   b: Acc, n': nat, sum': real, squares': real)
    requires ClosedForm(a, n, sum, squares)
    requires b == Push(a, x) && n' == n + 1 && sum' == sum + x && squares' == squares + Distance(0.0)(x)
    ensures ClosedForm(b, n', sum', squares')
  {
    PushClosed(a, x, n, sum, squares);
    assert Distance(0.0)(x) == x * x;
  }

  lemma ClosedNone(a: Acc, n: nat, sum: real, squares: real)
    requires a == ZERO && n == 0 && sum == 0.0 && squares == 0.0
    ensures ClosedForm(a, n, sum, squares)
  {}

  lemma {:induction false} Closed(xs: seq<real>)
    ensures ClosedForm(PushAll(xs), |xs|, Sum(xs), Spread(xs, 0.0))
  {
    hide *;
    if xs == [] {
      NoPush(xs);
      NoSample(xs, 0.0);
      ClosedNone(PushAll(xs), |xs|, Sum(xs), Spread(xs, 0.0));
    } else {
      var init := xs[..|xs| - 1];
      Closed(init);
      LastPush(xs);
      LastSample(xs, 0.0);
      ClosedNext(PushAll(init), |init|, Sum(init), Spread(init, 0.0), xs[|xs| - 1],
                 PushAll(xs), |xs|, Sum(xs), Spread(xs, 0.0));
    }
  }

  /** A closed form, and the spread moved to the mean, say the same. */
  lemma ClosedIsTwoPass(a: Acc, n: nat, sum: real, squares: real, mean: real, spread: real)
    requires ClosedForm(a, n, sum, squares) && n > 0 && mean == sum / n as real
    requires Moved(spread, squares, sum, n, mean)
    ensures a.n == n && a.mean == mean && a.m2 == spread
  {
    Divide(sum, n as real);
    SameQuotient(a.mean, mean, n as real);
    assert n as real * (mean * mean) == mean * (mean * n as real);
  }

  lemma TwoPassParts(xs: seq<real>)
    ensures xs != [] ==> Mean(xs) == Sum(xs) / |xs| as real && Deviations(xs) == Spread(xs, Mean(xs))
    ensures xs == [] ==> Deviations(xs) == 0.0
    ensures forall c :: Spread(xs, c) == Total(xs, Distance(c))
  {}

  /** Welford's accumulator is the two-pass mean and sum of squared deviations, for
      every sequence; so its sum of squares is never negative. */
  lemma WelfordIsTwoPass(xs: seq<real>)
    ensures PushAll(xs).n == |xs|
    ensures xs != [] ==> PushAll(xs).mean == Mean(xs)
    ensures PushAll(xs).m2 == Deviations(xs)
    ensures PushAll(xs).m2 >= 0.0
  {
    hide *;
    TwoPassParts(xs);
    if xs == [] {
      NoPush(xs);
      ZeroParts();
    } else {
      var mean := Mean(xs);
      Closed(xs);
      SpreadAbout(xs, mean);
      ClosedIsTwoPass(PushAll(xs), |xs|, Sum(xs), Spread(xs, 0.0), mean, Spread(xs, mean));
      SpreadNonNegative(xs, mean);
    }
  }

  lemma ZeroParts()
    ensures ZERO.n == 0 && ZERO.m2 == 0.0
  {}

  // ---------------------------------------------------------------- order

  lemma {:induction false} TotalAppend(a: seq<real>, b: seq<real>, f: real -> real)
    ensures Total(a + b, f) == Total(a, f) + Total(b, f)
  {
    if b == [] {
      assert a + b == a;
    } else {
      var k := |b| - 1;
      assert (a + b)[..|a + b| - 1] == a + b[..k];
      TotalAppend(a, b[..k], f);
    }
  }

  /** Taking one sample out and putting it back. */
  lemma TotalWithout(xs: seq<real>, i: nat, f: real -> real)
    requires i < |xs|
    ensures Total(xs, f) == Total(xs[..i] + xs[i + 1..], f) + f(xs[i])
  {
    hide *;
    var left, x, right := xs[..i], xs[i], xs[i + 1..];
    assert xs == left + [x] + right;
    TotalOne(x, f);
    TotalAppend(left + [x], right, f);
    TotalAppend(left, [x], f);
    TotalAppend(left, right, f);
  }

  lemma TotalOne(x: real, f: real -> real)
    ensures Total([x], f) == f(x)
  {
    assert [x][..0] == [];
  }

  lemma Find(ys: seq<real>, x: real, all: multiset<real>) returns (i: nat)
    requires all == multiset(ys) && x in all
    ensures i < |ys| && ys[i] == x
  {
    i :| 0 <= i < |ys| && ys[i] == x;
  }

  lemma Remove(xs: seq<real>, i: nat)
    requires i < |xs|
    ensures multiset(xs[..i] + xs[i + 1..]) == multiset(xs) - multiset{xs[i]}
  {
    assert xs == xs[..i] + ([xs[i]] + xs[i + 1..]);
  }

  lemma {:induction false} TotalPermutes(xs: seq<real>, ys: seq<real>, f: real -> real)
    requires multiset(xs) == multiset(ys)
    ensures |xs| == |ys| && Total(xs, f) == Total(ys, f)
    decreases |xs|
  {
    assert |multiset(xs)| == |xs| && |multiset(ys)| == |ys|;
    if xs != [] {
      var k := |xs| - 1;
      var i := Find(ys, xs[k], multiset(xs));
      var rest := ys[..i] + ys[i + 1..];
      assert xs[..k] + xs[k + 1..] == xs[..k];
      Remove(xs, k);
      Remove(ys, i);
      TotalPermutes(xs[..k], rest, f);
      TotalWithout(ys, i, f);
    }
  }

  /** The order in which samples are pushed does not matter. */
  lemma PushOrderIrrelevant(xs: seq<real>, ys: seq<real>)
    requires multiset(xs) == multiset(ys)
    ensures PushAll(xs) == PushAll(ys)
  {
    WelfordIsTwoPass(xs);
    WelfordIsTwoPass(ys);
    TotalPermutes(xs, ys, Value());
    if xs != [] {
      TotalPermutes(xs, ys, Distance(Mean(xs)));
    }
  }

  lemma PushMore(xs: seq<real>, x: real)
    ensures PushAll(xs + [x]) == Push(PushAll(xs), x)
  {
    assert (xs + [x])[..|xs|] == xs;
  }

  // ---------------------------------------------------------------- the object

  class Accumulator {
    var n: nat
    var mean: real
    var m2: real
    ghost var pushed: seq<real>

    function View(): Acc
      reads this
    {
      Acc(n, mean, m2)
    }

    ghost predicate Valid()
      reads this
    {
      View() == PushAll(pushed)
    }

    constructor ()
      ensures Valid() && pushed == []
    {
      n, mean, m2, pushed := 0, 0.0, 0.0, [];
    }

    method Update(x: real)
      modifies this`n, this`mean, this`m2
      ensures View() == Push(old(View()), x)
    {
      n := n + 1;
      var delta := x - mean;
      mean := mean + delta / n as real;
      m2 := m2 + delta * (x - mean);
    }

    method PushSample(x: real)
      requires Valid()
      modifies this
      ensures Valid() && pushed == old(pushed) + [x]
    {
      hide Push, PushAll;
      Update(x);
      PushMore(pushed, x);
      pushed := pushed + [x];
    }

    /** Sample variance, undefined below two samples. */
    method Variance() returns (defined: bool, v: real)
      requires Valid()
      ensures defined <==> |pushed| >= 2
      ensures defined ==> v == Deviations(pushed) / (|pushed| - 1) as real
    {
      WelfordIsTwoPass(pushed);
      defined := n >= 2;
      v := 0.0;
      if defined {
        v := m2 / (n - 1) as real;
      }
    }
  }
}
