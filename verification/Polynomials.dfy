/** Polynomials over GF(2^8) as coefficient sequences, highest degree first. */
module Polynomials {
  import opened GaloisField

  type Poly = seq<bv8>

  function Zeros(n: nat): (p: Poly)
    ensures |p| == n
  {
    seq(n, _ => 0)
  }

  function Sum(p: Poly, q: Poly): (r: Poly)
    requires |p| == |q|
    ensures |r| == |p|
  {
    seq(|p|, i requires 0 <= i < |p| => Add(p[i], q[i]))
  }

  function Scale(p: Poly, c: bv8): (r: Poly)
    ensures |r| == |p|
  {
    seq(|p|, i requires 0 <= i < |p| => Mul(p[i], c))
  }

  /** The value of p at x. */
  function Eval(p: Poly, x: bv8): bv8 {
    if p == [] then 0 else Add(Mul(Eval(p[..|p| - 1], x), x), p[|p| - 1])
  }

  /** The product of two polynomials, one coefficient of p at a time.  As in the source, the
    * product by an empty list is a list of zeros. */
  function Product(p: Poly, q: Poly): (r: Poly)
    ensures |r| == if |p| + |q| > 0 then |p| + |q| - 1 else 0
  {
    if p == [] || q == [] then Zeros(if |p| + |q| > 0 then |p| + |q| - 1 else 0)
    else Sum(Product(p[..|p| - 1], q) + [0], Zeros(|p| - 1) + Scale(q, p[|p| - 1]))
  }

  lemma {:induction false} EvalZeros(n: nat, x: bv8)
    ensures Eval(Zeros(n), x) == 0
  {
    hide Mul, Add;
    if n > 0 {
      assert Zeros(n)[..n - 1] == Zeros(n - 1);
      EvalZeros(n - 1, x);
      MulZero(x);
      AddZero(0);
    }
  }

  lemma {:induction false} EvalLeadingZeros(n: nat, p: Poly, x: bv8)
    ensures Eval(Zeros(n) + p, x) == Eval(p, x)
  {
    hide Mul, Add;
    if p == [] {
      assert Zeros(n) + p == Zeros(n);
      EvalZeros(n, x);
    } else {
      assert (Zeros(n) + p)[..n + |p| - 1] == Zeros(n) + p[..|p| - 1];
      EvalLeadingZeros(n, p[..|p| - 1], x);
    }
  }

  lemma EvalAppend(p: Poly, c: bv8, x: bv8)
    ensures Eval(p + [c], x) == Add(Mul(Eval(p, x), x), c)
  {
    hide Mul, Add;
    assert (p + [c])[..|p|] == p;
  }

  lemma {:induction false} EvalSum(p: Poly, q: Poly, x: bv8)
    requires |p| == |q|
    ensures Eval(Sum(p, q), x) == Add(Eval(p, x), Eval(q, x))
  {
    hide Mul, Add;
    if p == [] {
      AddZero(0);
    } else {
      var n := |p| - 1;
      var p', q' := p[..n], q[..n];
      assert Sum(p, q) == Sum(p', q') + [Add(p[n], q[n])];
      EvalSum(p', q', x);
      EvalAppend(Sum(p', q'), Add(p[n], q[n]), x);
      MulAdd(Eval(p', x), Eval(q', x), x);
      Regroup(Mul(Eval(p', x), x), Mul(Eval(q', x), x), p[n], q[n]);
    }
  }

  lemma MulSwap(a: bv8, b: bv8, c: bv8)
    ensures Mul(Mul(a, b), c) == Mul(Mul(a, c), b)
  {
    hide Mul;
    MulAssoc(a, b, c);
    MulComm(b, c);
    MulAssoc(a, c, b);
  }

  lemma {:induction false} EvalScale(p: Poly, c: bv8, x: bv8)
    ensures Eval(Scale(p, c), x) == Mul(Eval(p, x), c)
  {
    hide Mul, Add;
    if p == [] {
      MulZero(c);
    } else {
      var n := |p| - 1;
      var p' := p[..n];
      assert Scale(p, c) == Scale(p', c) + [Mul(p[n], c)];
      EvalScale(p', c, x);
      EvalAppend(Scale(p', c), Mul(p[n], c), x);
      MulSwap(Eval(p', x), c, x);
      MulAdd(Mul(Eval(p', x), x), p[n], c);
    }
  }

  /** Product multiplies values at every point. */
  lemma {:induction false} EvalProduct(p: Poly, q: Poly, x: bv8)
    ensures Eval(Product(p, q), x) == Mul(Eval(p, x), Eval(q, x))
    decreases |p|
  {
    hide Mul, Add;
    if p == [] || q == [] {
      EvalZeros(|Product(p, q)|, x);
      MulZero(Eval(p, x));
      MulZero(Eval(q, x));
    } else {
      var n := |p| - 1;
      var p', c := p[..n], p[n];
      EvalProduct(p', q, x);
      EvalSum(Product(p', q) + [0], Zeros(n) + Scale(q, c), x);
      EvalAppend(Product(p', q), 0, x);
      AddZero(Mul(Mul(Eval(p', x), Eval(q, x)), x));
      EvalLeadingZeros(n, Scale(q, c), x);
      EvalScale(q, c, x);
      MulSwap(Eval(p', x), Eval(q, x), x);
      MulComm(Eval(q, x), c);
      MulAdd(Mul(Eval(p', x), x), c, Eval(q, x));
    }
  }

  // ----- the generator polynomial -----

  /** The product of (x + alpha^i) for i < n. */
  function Generator(n: nat): (g: Poly)
    ensures |g| == n + 1
  {
    if n == 0 then [1] else Product(Generator(n - 1), [1, AlphaPow(n - 1)])
  }

  lemma EvalOne(x: bv8)
    ensures Eval([1], x) == 1
  {
    hide Mul, Add;
    EvalAppend([], 1, x);
    assert [] + [1] == [1];
    MulZero(x);
    AddZero(1);
  }

  lemma EvalLinear(a: bv8, x: bv8)
    ensures Eval([1, a], x) == Add(x, a)
  {
    hide Mul, Add;
    EvalOne(x);
    EvalAppend([1], a, x);
    assert [1] + [a] == [1, a];
    MulOne(x);
  }

  lemma GeneratorRootStep(n: nat, x: bv8)
    ensures Eval(Generator(n + 1), x) == 0 <==> Eval(Generator(n), x) == 0 || x == AlphaPow(n)
  {
    hide Mul, Add, AlphaPow;
    EvalProduct(Generator(n), [1, AlphaPow(n)], x);
    EvalLinear(AlphaPow(n), x);
    NoZeroDivisors(Eval(Generator(n), x), Add(x, AlphaPow(n)));
    AddCancel(x, AlphaPow(n));
    AddSelf(x);
  }

  /** The generator's roots are exactly alpha^0, ..., alpha^(n-1). */
  lemma {:induction false} GeneratorRoots(n: nat, x: bv8)
    ensures Eval(Generator(n), x) == 0 <==> exists i :: 0 <= i < n && x == AlphaPow(i)
  {
    hide Eval, AlphaPow, Product;
    if n == 0 {
      EvalOne(x);
    } else {
      GeneratorRoots(n - 1, x);
      GeneratorRootStep(n - 1, x);
      if x == AlphaPow(n - 1) {
        assert 0 <= n - 1 < n && x == AlphaPow(n - 1);
      }
    }
  }

  lemma {:induction false} LeadingProduct(p: Poly, q: Poly)
    requires p != [] && q != []
    ensures Product(p, q)[0] == Mul(q[0], p[0])
    decreases |p|
  {
    hide Mul, Add;
    var n := |p| - 1;
    if n == 0 {
      AddZero(Mul(q[0], p[0]));
      assert Product(p[..0], q) == Zeros(|q| - 1);
      assert (Product(p[..0], q) + [0])[0] == 0;
    } else {
      LeadingProduct(p[..n], q);
      AddZero(Mul(q[0], p[0]));
    }
  }

  lemma {:induction false} GeneratorMonic(n: nat)
    ensures Generator(n)[0] == 1
  {
    hide Mul, Add, AlphaPow;
    if n > 0 {
      GeneratorMonic(n - 1);
      LeadingProduct(Generator(n - 1), [1, AlphaPow(n - 1)]);
      MulOne(1);
    }
  }

  // ----- codewords and their distance -----

  /** w vanishes at alpha^0, ..., alpha^(n-1). */
  ghost predicate IsCodeword(w: Poly, n: nat) {
    forall j :: 0 <= j < n ==> Eval(w, AlphaPow(j)) == 0
  }

  /** The number of nonzero coefficients. */
  function Weight(w: Poly): (k: nat)
    ensures k <= |w|
  {
    if w == [] then 0 else Weight(w[..|w| - 1]) + if w[|w| - 1] == 0 then 0 else 1
  }

  function Distance(v: Poly, w: Poly): nat
    requires |v| == |w|
  {
    Weight(Sum(v, w))
  }

  lemma {:induction false} WeightZero(w: Poly)
    ensures Weight(w) == 0 <==> forall i :: 0 <= i < |w| ==> w[i] == 0
  {
    if w != [] {
      var n := |w| - 1;
      WeightZero(w[..n]);
      assert forall i :: 0 <= i < n ==> w[..n][i] == w[i];
    }
  }

  /** Clearing one nonzero coefficient lowers the weight by one. */
  lemma {:induction false} WeightDrop(v: Poly, w: Poly, k: nat)
    requires |v| == |w| && k < |w|
    requires forall i :: 0 <= i < |w| && i != k ==> (v[i] == 0 <==> w[i] == 0)
    requires v[k] == 0 && w[k] != 0
    ensures Weight(v) + 1 == Weight(w)
  {
    var n := |w| - 1;
    if k == n {
      WeightSame(v[..n], w[..n]);
    } else {
      WeightDrop(v[..n], w[..n], k);
    }
  }

  lemma {:induction false} WeightSame(v: Poly, w: Poly)
    requires |v| == |w|
    requires forall i :: 0 <= i < |w| ==> (v[i] == 0 <==> w[i] == 0)
    ensures Weight(v) == Weight(w)
  {
    if w != [] {
      WeightSame(v[..|v| - 1], w[..|w| - 1]);
    }
  }

  /** The locator of position i in a word of length n. */
  function Locator(n: nat, i: nat): bv8
    requires i < n
  {
    AlphaPow(n - 1 - i)
  }

  /** Every coefficient multiplied by its own locator. */
  function Weigh(w: Poly): (r: Poly)
    ensures |r| == |w|
  {
    seq(|w|, i requires 0 <= i < |w| => Mul(w[i], Locator(|w|, i)))
  }

  lemma AlphaPowNext(j: nat)
    ensures AlphaPow(j + 1) == Mul(AlphaPow(j), AlphaPow(1)) == Mul(AlphaPow(1), AlphaPow(j))
  {
    hide Mul, Xtime;
    AlphaPowAdd(j, 1);
    MulComm(AlphaPow(j), AlphaPow(1));
  }

  lemma {:induction false} WeighAppend(w: Poly, c: bv8)
    ensures Weigh(w + [c]) == Scale(Weigh(w), AlphaPow(1)) + [c]
  {
    hide Mul;
    forall i | 0 <= i < |w|
      ensures Weigh(w + [c])[i] == Scale(Weigh(w), AlphaPow(1))[i]
    {
      MulAssoc(w[i], Locator(|w|, i), AlphaPow(1));
      AlphaPowNext(|w| - 1 - i);
    }
    MulOne(c);
  }

  lemma {:induction false} EvalWeigh(w: Poly, x: bv8)
    ensures Eval(Weigh(w), x) == Eval(w, Mul(x, AlphaPow(1)))
  {
    hide Mul, Add, AlphaPow;
    if w != [] {
      var w', c := w[..|w| - 1], w[|w| - 1];
      assert w == w' + [c];
      var y := Mul(x, AlphaPow(1));
      EvalWeigh(w', x);
      WeighAppend(w', c);
      EvalAppend(Scale(Weigh(w'), AlphaPow(1)), c, x);
      EvalScale(Weigh(w'), AlphaPow(1), x);
      EvalAppend(w', c, y);
      MulAssoc(Eval(w', y), AlphaPow(1), x);
      MulComm(AlphaPow(1), x);
    }
  }

  /** Multiplies coefficient i by (its locator + the locator of position k), which clears k. */
  function Twist(w: Poly, k: nat): (r: Poly)
    requires k < |w|
    ensures |r| == |w|
  {
    Sum(Weigh(w), Scale(w, Locator(|w|, k)))
  }

  lemma TwistZero(w: Poly, k: nat, i: nat)
    requires k < |w| <= 255 && i < |w|
    ensures Twist(w, k)[i] == 0 <==> w[i] == 0 || i == k
  {
    hide Mul, Add, AlphaPow;
    var x, y := Locator(|w|, i), Locator(|w|, k);
    MulAdd(x, y, w[i]);
    NoZeroDivisors(w[i], Add(x, y));
    AddSelf(y);
    AddCancel(x, y);
    if x == y {
      if i <= k { AlphaPowInjective(|w| - 1 - k, |w| - 1 - i); } else { AlphaPowInjective(|w| - 1 - i, |w| - 1 - k); }
    }
  }

  lemma TwistCodeword(w: Poly, k: nat, n: nat)
    requires k < |w| && n > 0
    requires IsCodeword(w, n)
    ensures IsCodeword(Twist(w, k), n - 1)
  {
    hide Mul, Add, AlphaPow;
    forall j | 0 <= j < n - 1
      ensures Eval(Twist(w, k), AlphaPow(j)) == 0
    {
      var x := AlphaPow(j);
      EvalSum(Weigh(w), Scale(w, Locator(|w|, k)), x);
      EvalWeigh(w, x);
      AlphaPowNext(j);
      assert Eval(w, AlphaPow(j + 1)) == 0;
      EvalScale(w, Locator(|w|, k), x);
      MulZero(Locator(|w|, k));
      AddZero(0);
    }
  }

  /** A word with a single nonzero coefficient does not vanish at alpha^0. */
  lemma {:induction false} SingleNonzero(w: Poly, k: nat)
    requires k < |w| && w[k] != 0
    requires forall i :: 0 <= i < |w| && i != k ==> w[i] == 0
    ensures Eval(w, 1) == w[k]
  {
    hide Mul, Add;
    var n := |w| - 1;
    var w', c := w[..n], w[n];
    assert w == w' + [c];
    EvalAppend(w', c, 1);
    MulOne(Eval(w', 1));
    AddZero(Eval(w', 1));
    AddZero(c);
    if k == n {
      assert w' == Zeros(n);
      EvalZeros(n, 1);
    } else {
      SingleNonzero(w', k);
    }
  }

  /** The minimum weight of the code: a word of at most n nonzero coefficients that vanishes at
    * n consecutive powers of alpha is zero.  (Each step clears one position and gives up one root.) */
  lemma {:induction false} LightCodewordIsZero(w: Poly, n: nat)
    requires |w| <= 255
    requires IsCodeword(w, n) && Weight(w) <= n
    ensures forall i :: 0 <= i < |w| ==> w[i] == 0
    decreases n
  {
    hide Mul, Add, AlphaPow;
    WeightZero(w);
    if Weight(w) > 0 {
      var k :| 0 <= k < |w| && w[k] != 0;
      var v := Twist(w, k);
      forall i | 0 <= i < |w|
        ensures v[i] == 0 <==> w[i] == 0 || i == k
      {
        TwistZero(w, k, i);
      }
      WeightDrop(v, w, k);
      TwistCodeword(w, k, n);
      DecisivePowers();
      assert Eval(w, AlphaPow(0)) == 0;
      LightCodewordIsZero(v, n - 1);
      SingleNonzero(w, k);
    }
  }

  /** Two different codewords of length at most 255 differ in more than n positions. */
  lemma MinimumDistance(v: Poly, w: Poly, n: nat)
    requires |v| == |w| <= 255
    requires IsCodeword(v, n) && IsCodeword(w, n) && v != w
    ensures Distance(v, w) > n
  {
    hide Mul, Add, AlphaPow;
    var d := Sum(v, w);
    forall j | 0 <= j < n
      ensures Eval(d, AlphaPow(j)) == 0
    {
      EvalSum(v, w, AlphaPow(j));
      AddZero(0);
    }
    if Weight(d) <= n {
      LightCodewordIsZero(d, n);
      forall i | 0 <= i < |v|
        ensures v[i] == w[i]
      {
        assert d[i] == 0;
        AddCancel(v[i], w[i]);
      }
    }
  }
  // ----- words longer than 255 -----

  lemma {:induction false} EvalShift(p: Poly, m: nat, j: nat)
    ensures Eval(p + Zeros(m), AlphaPow(j)) == Mul(Eval(p, AlphaPow(j)), AlphaPow(m * j))
  {
    hide Mul, Eval, AlphaPow;
    if m == 0 {
      assert p + Zeros(0) == p;
      PowerZero();
      MulOne(Eval(p, AlphaPow(j)));
    } else {
      EvalShift(p, m - 1, j);
      ShiftOnce(p, m, (m - 1) * j, j);
      assert (m - 1) * j + j == m * j;
    }
  }

  lemma ShiftOnce(p: Poly, m: nat, k: nat, j: nat)
    requires m > 0 && Eval(p + Zeros(m - 1), AlphaPow(j)) == Mul(Eval(p, AlphaPow(j)), AlphaPow(k))
    ensures Eval(p + Zeros(m), AlphaPow(j)) == Mul(Eval(p, AlphaPow(j)), AlphaPow(k + j))
  {
    hide Mul, Add, AlphaPow, Eval;
    assert p + Zeros(m) == (p + Zeros(m - 1)) + [0];
    EvalAppend(p + Zeros(m - 1), 0, AlphaPow(j));
    AddZero(Mul(Eval(p + Zeros(m - 1), AlphaPow(j)), AlphaPow(j)));
    MulAssoc(Eval(p, AlphaPow(j)), AlphaPow(k), AlphaPow(j));
    AlphaPowAdd(k, j);
  }

  lemma PowerZero()
    ensures AlphaPow(0) == 1
  {
  }

  lemma {:induction false} WeightShift(p: Poly, m: nat)
    ensures Weight(p + Zeros(m)) == Weight(p)
  {
    if m == 0 {
      assert p + Zeros(0) == p;
    } else {
      assert (p + Zeros(m))[..|p| + m - 1] == p + Zeros(m - 1);
      WeightShift(p, m - 1);
    }
  }

  lemma WeightAppend(p: Poly, c: bv8)
    ensures Weight(p + [c]) == Weight(p) + if c == 0 then 0 else 1
  {
    assert (p + [c])[..|p|] == p;
  }

  /** Two ones, 255 places apart, after length - 256 zeros. */
  function TwoOnes(length: nat): (w: Poly)
    requires length > 255
    ensures |w| == length
  {
    Zeros(length - 256) + [1] + Zeros(254) + [1]
  }

  lemma TwoOnesWeight(length: nat)
    requires length > 255
    ensures Weight(TwoOnes(length)) == 2 && Weight(TwoOnes(length)[..length - 1]) == 1
  {
    var z := Zeros(length - 256);
    WeightZero(z);
    WeightAppend(z, 1);
    WeightShift(z + [1], 254);
    WeightAppend(z + [1] + Zeros(254), 1);
    assert TwoOnes(length)[..length - 1] == z + [1] + Zeros(254);
  }

  /** alpha^255 is 1, so that word vanishes at every power of alpha. */
  lemma TwoOnesCodeword(length: nat, n: nat)
    requires length > 255
    ensures IsCodeword(TwoOnes(length), n)
  {
    hide Mul, Add, AlphaPow;
    var z := Zeros(length - 256);
    forall j | 0 <= j < n
      ensures Eval(TwoOnes(length), AlphaPow(j)) == 0
    {
      EvalZeros(length - 256, AlphaPow(j));
      EvalAppend(z, 1, AlphaPow(j));
      MulZero(AlphaPow(j));
      AddZero(1);
      EvalShift(z + [1], 254, j);
      EvalAppend(z + [1] + Zeros(254), 1, AlphaPow(j));
      MulAssoc(1, AlphaPow(254 * j), AlphaPow(j));
      MulOne(AlphaPow(254 * j));
      AlphaPowAdd(254 * j, j);
      DecisivePowers();
      Periodic(255, j, 0);
      PowerZero();
      AddSelf(1);
    }
  }

  lemma ZerosCodeword(length: nat, n: nat)
    ensures IsCodeword(Zeros(length), n)
  {
    hide Mul, Add, AlphaPow;
    forall j | 0 <= j < n
      ensures Eval(Zeros(length), AlphaPow(j)) == 0
    {
      EvalZeros(length, AlphaPow(j));
    }
  }

  lemma DistanceFromZeros(w: Poly)
    ensures Distance(Zeros(|w|), w) == Weight(w) == Distance(w, Zeros(|w|))
  {
    forall i | 0 <= i < |w|
      ensures Add(0, w[i]) == w[i] == Add(w[i], 0)
    {
      AddZero(w[i]);
    }
    assert Sum(Zeros(|w|), w) == w == Sum(w, Zeros(|w|));
  }

  /** Any two different codewords of a length differ in more than n positions. */
  ghost predicate FarApart(length: nat, n: nat) {
    forall v: Poly, w: Poly {:trigger Distance(v, w)} ::
      |v| == |w| == length && IsCodeword(v, n) && IsCodeword(w, n) && v != w ==> Distance(v, w) > n
  }

  /** The distance is as promised exactly up to length 255. */
  lemma MinimumDistanceExactly(length: nat, n: nat)
    requires n >= 2
    ensures FarApart(length, n) <==> length <= 255
  {
    hide IsCodeword, Distance;
    if length <= 255 {
      forall v: Poly, w: Poly | |v| == |w| == length && IsCodeword(v, n) && IsCodeword(w, n) && v != w
        ensures Distance(v, w) > n
      {
        MinimumDistance(v, w, n);
      }
    } else {
      var v, w := Zeros(length), TwoOnes(length);
      ZerosCodeword(length, n);
      TwoOnesCodeword(length, n);
      TwoOnesWeight(length);
      DistanceFromZeros(w);
      assert w[length - 1] == 1 && v[length - 1] == 0;
      assert Distance(v, w) == 2;
    }
  }

  /** Versions 9 and 10 put 232 + 30 and 274 + 18 symbols in one block: too many. */
  lemma LongBlocksTooClose()
    ensures !FarApart(232 + 30, 30) && !FarApart(274 + 18, 18)
  {
    MinimumDistanceExactly(232 + 30, 30);
    MinimumDistanceExactly(274 + 18, 18);
  }
}
