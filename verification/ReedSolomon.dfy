/** The table-driven encoder of src/anbar/qrcode.py. */
module ReedSolomon {
  import opened GaloisField
  import opened Polynomials

  /** The module-level tables _EXP and _LOG. */
  class Tables {
    const exp: array<bv8>
    const log: array<nat>

    /** The tables hold the powers of alpha and their logarithms. */
    ghost predicate Valid()
      reads this, exp, log
    {
      && exp.Length == 512 && log.Length == 256
      && (forall i :: 0 <= i < 512 ==> exp[i] == AlphaPow(i))
      && (forall a: bv8 :: a != 0 ==> log[Index(a)] < 255 && AlphaPow(log[Index(a)]) == a)
    }

    constructor ()
      ensures Valid() && fresh(exp) && fresh(log)
      ensures forall i: nat :: i < 255 ==> log[Index(exp[i])] == i
    {
      exp := new bv8[512](_ => 0);
      log := new nat[256](_ => 0);
      new;
      InitGf(exp, log);
      hide AlphaPow, Index;
      forall a: bv8 | a != 0
        ensures log[Index(a)] < 255 && AlphaPow(log[Index(a)]) == a
      {
        var k := DiscreteLog(a);
      }
    }

    /** _gmul: multiplication by adding logarithms. */
    function Gmul(a: bv8, b: bv8): (r: bv8)
      requires Valid()
      reads this, exp, log
      ensures r == Mul(a, b)
    {
      hide Index, AlphaPow, Mul;
      MulZero(a);
      MulZero(b);
      if a == 0 || b == 0 then 0
      else
        AlphaPowAdd(log[Index(a)], log[Index(b)]);
        exp[log[Index(a)] + log[Index(b)]]
    }
  }

  lemma AlphaPowStep(i: nat)
    ensures AlphaPow(i + 1) == Xtime(AlphaPow(i))
  {
  }

  /** x <<= 1, then XOR with 0x11D when the ninth bit came up. */
  function Double(x: bv9): bv9 {
    if (x << 1) & 0x100 != 0 then (x << 1) ^ 0x11D else x << 1
  }

  function Narrow(x: bv9): bv8 {
    (x & 0xFF) as bv8
  }

  lemma DoubleIsXtime(x: bv9)
    requires x < 0x100
    ensures Double(x) < 0x100
    ensures Narrow(Double(x)) == Xtime(Narrow(x))
  {
  }

  lemma DistinctIndices(k: nat, i: nat)
    requires k < i < 255
    ensures Index(AlphaPow(k)) != Index(AlphaPow(i))
  {
    hide AlphaPow, Index;
    if Index(AlphaPow(k)) == Index(AlphaPow(i)) {
      IndexInjective(AlphaPow(k), AlphaPow(i));
      AlphaPowInjective(k, i);
    }
  }

  /** _init_gf: one pass over the powers of alpha, then a second period of _EXP. */
  method InitGf(exp: array<bv8>, log: array<nat>)
    requires exp.Length == 512 && log.Length == 256
    modifies exp, log
    ensures forall i :: 0 <= i < 512 ==> exp[i] == AlphaPow(i)
    ensures forall i :: 0 <= i < 255 ==> log[Index(AlphaPow(i))] == i
  {
    hide Index, AlphaPow, Xtime, Double, Narrow;
    var x: bv9 := 1;
    DecisivePowers();
    assert Narrow(1) == 1 by { NarrowOne(); }
    var i := 0;
    while i < 255
      invariant 0 <= i <= 255
      invariant x < 0x100 && Narrow(x) == AlphaPow(i)
      invariant forall k :: 0 <= k < i ==> exp[k] == AlphaPow(k)
      invariant forall k :: 0 <= k < i ==> log[Index(AlphaPow(k))] == k
    {
      DoubleIsXtime(x);
      AlphaPowStep(i);
      forall k | 0 <= k < i
        ensures Index(AlphaPow(k)) != Index(AlphaPow(i))
      {
        DistinctIndices(k, i);
      }
      exp[i] := Narrow(x);
      log[Index(Narrow(x))] := i;
      x := Double(x);
      i := i + 1;
    }
    while i < 512
      invariant 255 <= i <= 512
      invariant forall k :: 0 <= k < i ==> exp[k] == AlphaPow(k)
      invariant forall k :: 0 <= k < 255 ==> log[Index(AlphaPow(k))] == k
    {
      Periodic(255, 1, i - 255);
      exp[i] := exp[i - 255];
      i := i + 1;
    }
  }

  lemma NarrowOne()
    ensures Narrow(1) == 1
  {
  }

  /** base with c * p added at offset i, for the first j coefficients of p. */
  ghost predicate AddedUpTo(now: Poly, base: Poly, p: Poly, c: bv8, i: nat, j: nat) {
    && |now| == |base|
    && j <= |p| && i + |p| <= |base|
    && forall k :: 0 <= k < |base| ==>
         now[k] == if i <= k < i + j then Add(base[k], Mul(p[k - i], c)) else base[k]
  }

  /** One more coefficient of the left factor, read off at position k. */
  lemma ProductStep(p: Poly, c: bv8, q: Poly, k: nat)
    requires q != [] && k < |p| + |q|
    ensures |Product(p, q)| == |p| + |q| - 1 && |Product(p + [c], q)| == |p| + |q|
    ensures Product(p + [c], q)[k] == Add(if k < |p| + |q| - 1 then Product(p, q)[k] else 0,
                                          if k >= |p| then Mul(q[k - |p|], c) else 0)
  {
    hide Mul, Add;
    assert (p + [c])[..|p|] == p;
    var shifted := Zeros(|p|) + Scale(q, c);
    assert Product(p + [c], q) == Sum(Product(p, q) + [0], shifted);
  }

  lemma AddedRow(now: Poly, p: Poly, c: bv8, q: Poly, m: nat)
    requires q != [] && m > 0
    requires AddedUpTo(now, Product(p, q) + Zeros(m), q, c, |p|, |q|)
    ensures now == Product(p + [c], q) + Zeros(m - 1)
  {
    hide Mul, Add, Product;
    var next := Product(p + [c], q) + Zeros(m - 1);
    assert |now| == |next|;
    forall k | 0 <= k < |now|
      ensures now[k] == next[k]
    {
      if k < |p| + |q| {
        ProductStep(p, c, q, k);
        AddZero((Product(p, q) + Zeros(m))[k]);
      }
    }
  }

  /** The inner loop of _poly_mul and of _rs_encode: XORs c * p into out at offset i. */
  method XorScaled(gf: Tables, out: array<bv8>, p: seq<bv8>, c: bv8, i: nat)
    requires gf.Valid() && out != gf.exp && out as object != gf.log
    requires i + |p| <= out.Length
    modifies out
    ensures AddedUpTo(out[..], old(out[..]), p, c, i, |p|)
  {
    hide Mul, Add, AlphaPow, Index;
    for j := 0 to |p|
      invariant gf.Valid()
      invariant AddedUpTo(out[..], old(out[..]), p, c, i, j)
    {
      var term := gf.Gmul(p[j], c);
      out[i + j] := Add(out[i + j], term);
    }
  }

  /** _poly_mul. */
  method PolyMul(gf: Tables, p1: seq<bv8>, p2: seq<bv8>) returns (r: seq<bv8>)
    requires gf.Valid()
    ensures r == Product(p1, p2)
  {
    hide Mul, Add, AlphaPow, Index;
    var out := new bv8[if |p1| + |p2| > 0 then |p1| + |p2| - 1 else 0](_ => 0);
    if p2 == [] {
      r := out[..];
      return;
    }
    assert p1[..|p1|] == p1;
    for i := 0 to |p1|
      invariant out[..] == Product(p1[..i], p2) + Zeros(|p1| - i)
    {
      hide Product;
      XorScaled(gf, out, p2, p1[i], i);
      AddedRow(out[..], p1[..i], p1[i], p2, |p1| - i);
      assert p1[..i] + [p1[i]] == p1[..i + 1];
    }
    r := out[..];
  }

  /** _rs_gen_poly. */
  method RsGenPoly(gf: Tables, nsym: nat) returns (g: seq<bv8>)
    requires gf.Valid() && nsym <= 512
    ensures g == Generator(nsym)
  {
    hide Product, AlphaPow;
    g := [1];
    for i := 0 to nsym
      invariant g == Generator(i)
    {
      g := PolyMul(gf, g, [1, gf.exp[i]]);
    }
  }

  /** What the division loop maintains: data + zeros = res + q * gen, aligned to the left. */
  ghost predicate Divided(res: Poly, q: Poly, gen: Poly, data: Poly) {
    && |gen| >= 1 && |res| == |data| + |gen| - 1 && |q| <= |data|
    && (forall k :: 0 <= k < |q| ==> res[k] == 0)
    && Sum(res, Product(q, gen) + Zeros(|data| - |q|)) == data + Zeros(|gen| - 1)
  }

  lemma DivisionStep(res: Poly, now: Poly, q: Poly, gen: Poly, data: Poly)
    requires Divided(res, q, gen, data) && |q| < |data| && gen[0] == 1
    requires AddedUpTo(now, res, gen, res[|q|], |q|, |gen|)
    ensures Divided(now, q + [res[|q|]], gen, data)
  {
    hide Mul, Add, Product;
    var i, c, n := |q|, res[|q|], |data|;
    var before := Product(q, gen) + Zeros(n - i);
    var after := Product(q + [c], gen) + Zeros(n - i - 1);
    var target := data + Zeros(|gen| - 1);
    ProductStep(q, c, gen, i);
    forall k | 0 <= k < |res|
      ensures Add(now[k], after[k]) == target[k]
    {
      var s := if i <= k < i + |gen| then Mul(gen[k - i], c) else 0;
      AddZero(res[k]);
      AddZero(before[k]);
      if k < i + |gen| {
        ProductStep(q, c, gen, k);
      }
      Regroup(res[k], s, before[k], s);
      AddSelf(s);
      AddZero(Add(res[k], before[k]));
      assert Sum(res, before)[k] == target[k];
    }
    assert Sum(now, after) == target;
    MulOne(c);
    AddSelf(c);
  }

  lemma NoCoefficient(res: Poly, gen: Poly, i: nat)
    requires i + |gen| <= |res|
    ensures AddedUpTo(res, res, gen, 0, i, |gen|)
  {
    hide Mul, Add;
    forall k | i <= k < i + |gen|
      ensures res[k] == Add(res[k], Mul(gen[k - i], 0))
    {
      MulZero(gen[k - i]);
      AddZero(res[k]);
    }
  }

  lemma DivisionDone(res: Poly, q: Poly, gen: Poly, data: Poly)
    requires Divided(res, q, gen, data) && |q| == |data|
    ensures Product(q, gen) == data + res[|data|..]
  {
    hide Mul, Add;
    var p := Product(q, gen) + Zeros(0);
    forall k | 0 <= k < |p|
      ensures p[k] == (data + res[|data|..])[k]
    {
      assert Sum(res, p)[k] == (data + Zeros(|gen| - 1))[k];
      AddZero(p[k]);
      AddCancel(res[k], p[k]);
    }
  }

  /** A multiple of the generator is a codeword. */
  lemma MultipleIsCodeword(q: Poly, n: nat)
    ensures IsCodeword(Product(q, Generator(n)), n)
  {
    hide Mul, AlphaPow, Product;
    forall j | 0 <= j < n
      ensures Eval(Product(q, Generator(n)), AlphaPow(j)) == 0
    {
      EvalProduct(q, Generator(n), AlphaPow(j));
      GeneratorRoots(n, AlphaPow(j));
      MulZero(Eval(q, AlphaPow(j)));
    }
  }

  /** _rs_encode: the check bytes make the message a multiple of the generator. */
  method RsEncode(gf: Tables, data: seq<bv8>, nsym: nat) returns (ecc: seq<bv8>, ghost quotient: Poly)
    requires gf.Valid() && nsym <= 512
    ensures |ecc| == nsym && |quotient| == |data|
    ensures data + ecc == Product(quotient, Generator(nsym))
    ensures IsCodeword(data + ecc, nsym)
  {
    hide Mul, Add, Product, Eval, AlphaPow, Index, Generator;
    var gen := RsGenPoly(gf, nsym);
    GeneratorMonic(nsym);
    var res := new bv8[|data| + nsym](k => if 0 <= k < |data| then data[k] else 0);
    quotient := [];
    EmptyQuotient(res[..], gen, data);
    for i := 0 to |data|
      invariant |quotient| == i
      invariant Divided(res[..], quotient, gen, data)
    {
      var coef := res[i];
      ghost var base := res[..];
      if coef != 0 {
        XorScaled(gf, res, gen, coef, i);
      } else {
        NoCoefficient(base, gen, i);
      }
      DivisionStep(base, res[..], quotient, gen, data);
      quotient := quotient + [coef];
    }
    ecc := res[|data|..];
    DivisionDone(res[..], quotient, gen, data);
    MultipleIsCodeword(quotient, nsym);
  }

  lemma EmptyQuotient(res: Poly, gen: Poly, data: Poly)
    requires |gen| >= 1 && res == data + Zeros(|gen| - 1)
    ensures Divided(res, [], gen, data)
  {
    hide Mul, Add;
    forall k | 0 <= k < |res|
      ensures Add(res[k], (Product([], gen) + Zeros(|data|))[k]) == res[k]
    {
      AddZero(res[k]);
    }
  }

  /** The check bytes are the only ones that complete the data to a codeword, however long it is. */
  lemma CheckBytesUnique(data: Poly, r: Poly, s: Poly, n: nat)
    requires |r| == |s| == n <= 255
    requires IsCodeword(data + r, n) && IsCodeword(data + s, n)
    ensures r == s
  {
    hide Mul, Add, Eval, AlphaPow, Weight;
    var d := Sum(r, s);
    forall j | 0 <= j < n
      ensures Eval(d, AlphaPow(j)) == 0
    {
      EvalSum(data + r, data + s, AlphaPow(j));
      AddZero(0);
      DataCancels(data, r, s);
      EvalLeadingZeros(|data|, d, AlphaPow(j));
    }
    LightCodewordIsZero(d, n);
    forall i | 0 <= i < n
      ensures r[i] == s[i]
    {
      assert d[i] == 0;
      AddCancel(r[i], s[i]);
    }
  }

  lemma DataCancels(data: Poly, r: Poly, s: Poly)
    requires |r| == |s|
    ensures Sum(data + r, data + s) == Zeros(|data|) + Sum(r, s)
  {
    hide Add;
    forall i | 0 <= i < |data|
      ensures Sum(data + r, data + s)[i] == 0
    {
      AddSelf(data[i]);
    }
  }

  /** Error correction: a received word within e errors of one codeword is more than e errors
    * away from every other one, whenever 2 * e <= nsym. */
  lemma UniqueDecoding(received: Poly, v: Poly, w: Poly, n: nat, e: nat)
    requires |received| == |v| == |w| <= 255 && 2 * e <= n
    requires IsCodeword(v, n) && IsCodeword(w, n) && v != w
    requires Distance(received, v) <= e
    ensures Distance(received, w) > e
  {
    hide Mul, Add, Eval, AlphaPow;
    MinimumDistance(v, w, n);
    Triangle(received, v, w);
  }

  /** Whenever at most n / 2 symbols of a codeword are wrong, it is the only nearest one. */
  ghost predicate Correctable(length: nat, n: nat) {
    forall received: Poly, v: Poly, w: Poly {:trigger Distance(received, v), Distance(received, w)} ::
      |received| == |v| == |w| == length && IsCodeword(v, n) && IsCodeword(w, n) && v != w ==>
        2 * Distance(received, v) <= n ==> Distance(received, w) > Distance(received, v)
  }

  /** Errors can be corrected exactly up to length 255. */
  lemma UniqueDecodingExactly(length: nat, n: nat)
    requires n >= 2
    ensures Correctable(length, n) <==> length <= 255
  {
    hide IsCodeword, Distance;
    if length <= 255 {
      forall received: Poly, v: Poly, w: Poly |
        |received| == |v| == |w| == length && IsCodeword(v, n) && IsCodeword(w, n) && v != w
        && 2 * Distance(received, v) <= n
        ensures Distance(received, w) > Distance(received, v)
      {
        UniqueDecoding(received, v, w, n, Distance(received, v));
      }
    } else {
      var received := BetweenTwo(length);
      ZerosCodeword(length, n);
      TwoOnesCodeword(length, n);
      assert TwoOnes(length)[length - 1] != Zeros(length)[length - 1];
      assert Distance(received, TwoOnes(length)) == Distance(received, Zeros(length));
    }
  }

  /** A word one symbol away from two codewords. */
  lemma BetweenTwo(length: nat) returns (received: Poly)
    requires length > 255
    ensures |received| == length
    ensures Distance(received, Zeros(length)) == 1 == Distance(received, TwoOnes(length))
  {
    hide Add;
    var w := TwoOnes(length);
    received := w[..length - 1] + [0];
    TwoOnesWeight(length);
    WeightAppend(w[..length - 1], 0);
    DistanceFromZeros(received);
    var d := Sum(received, w);
    forall i | 0 <= i < length - 1
      ensures d[i] == 0
    {
      AddSelf(w[i]);
    }
    AddZero(1);
    assert d == Zeros(length - 1) + [1];
    WeightZero(Zeros(length - 1));
    WeightAppend(Zeros(length - 1), 1);
  }

  lemma {:induction false} Triangle(r: Poly, v: Poly, w: Poly)
    requires |r| == |v| == |w|
    ensures Distance(v, w) <= Distance(r, v) + Distance(r, w)
  {
    hide Add;
    if r != [] {
      var n := |r| - 1;
      Triangle(r[..n], v[..n], w[..n]);
      assert Sum(r, v)[..n] == Sum(r[..n], v[..n]);
      assert Sum(r, w)[..n] == Sum(r[..n], w[..n]);
      assert Sum(v, w)[..n] == Sum(v[..n], w[..n]);
      AddCancel(r[n], v[n]);
      AddCancel(r[n], w[n]);
      AddSelf(v[n]);
    }
  }
}
