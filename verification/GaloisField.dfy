/** Arithmetic of GF(2^8) modulo x^8 + x^4 + x^3 + x^2 + 1 (0x11D), as the QR encoder uses it
  * (section 7.5.2 of ISO/IEC 18004).  A field element is a byte, so bv8.
  *
  * Bodies over bit-vectors are hidden wherever only their laws matter. */
module GaloisField {

  function Add(a: bv8, b: bv8): bv8 {
    a ^ b
  }

  /** Multiplication by alpha, the polynomial x. */
  function Xtime(a: bv8): bv8 {
    if a & 0x80 != 0 then Add(a << 1, 0x1D) else a << 1
  }

  function Pick(bit: bool, a: bv8): bv8 {
    if bit then a else 0
  }

  /** The product of a with the low n bits of b, by Horner's rule on b. */
  function MulBits(a: bv8, b: bv8, n: nat): bv8
    decreases n
  {
    if n == 0 then 0 else Add(Pick(Low(b), a), Xtime(MulBits(a, Half(b), n - 1)))
  }

  function Mul(a: bv8, b: bv8): bv8 {
    MulBits(a, b, 8)
  }

  predicate Low(b: bv8) {
    b & 1 != 0
  }

  function Half(b: bv8): bv8 {
    b >> 1
  }

  // ----- laws of addition -----

  lemma AddComm(a: bv8, b: bv8)
    ensures Add(a, b) == Add(b, a)
  {
  }

  lemma AddAssoc(a: bv8, b: bv8, c: bv8)
    ensures Add(Add(a, b), c) == Add(a, Add(b, c))
  {
  }

  lemma AddSelf(a: bv8)
    ensures Add(a, a) == 0
  {
  }

  lemma AddZero(a: bv8)
    ensures Add(a, 0) == a == Add(0, a)
  {
  }

  lemma Regroup(p: bv8, q: bv8, x: bv8, y: bv8)
    ensures Add(Add(p, q), Add(x, y)) == Add(Add(p, x), Add(q, y))
  {
    hide Add;
    AddAssoc(p, q, Add(x, y));
    AddAssoc(q, x, y);
    AddComm(q, x);
    AddAssoc(x, q, y);
    AddAssoc(p, x, Add(q, y));
  }

  lemma AddCancel(a: bv8, b: bv8)
    ensures Add(Add(a, b), b) == a
    ensures Add(a, b) == 0 ==> a == b
  {
    hide Add;
    AddAssoc(a, b, b);
    AddSelf(b);
    AddZero(a);
    AddZero(b);
  }

  // ----- multiplication by alpha -----

  lemma ShiftAdd(a: bv8, b: bv8)
    ensures Add(a, b) << 1 == Add(a << 1, b << 1)
  {
  }

  lemma TopAdd(a: bv8, b: bv8)
    ensures (Add(a, b) & 0x80 != 0) == ((a & 0x80 != 0) != (b & 0x80 != 0))
  {
  }

  lemma XtimeAdd(a: bv8, b: bv8)
    ensures Xtime(Add(a, b)) == Add(Xtime(a), Xtime(b))
  {
    hide Add;
    ShiftAdd(a, b);
    TopAdd(a, b);
    Regroup(a << 1, 0x1D, b << 1, 0x1D);
    AddSelf(0x1D);
    AddZero(Add(a << 1, b << 1));
    AddAssoc(a << 1, b << 1, 0x1D);
    AddAssoc(a << 1, 0x1D, b << 1);
    AddComm(b << 1, 0x1D);
  }

  lemma XtimeZero()
    ensures Xtime(0) == 0
  {
  }

  lemma PickAdd(bit: bool, a: bv8, b: bv8)
    ensures Pick(bit, Add(a, b)) == Add(Pick(bit, a), Pick(bit, b))
  {
    AddZero(0);
  }

  lemma LowHalf(a: bv8)
    ensures Add(Pick(Low(a), 1), Xtime(Half(a))) == a
  {
  }

  // ----- Mul is linear and commutes with Xtime -----

  lemma {:induction false} MulBitsAdd(a: bv8, b: bv8, c: bv8, n: nat)
    ensures MulBits(Add(a, b), c, n) == Add(MulBits(a, c, n), MulBits(b, c, n))
    decreases n
  {
    hide Xtime, Pick, Add, Half, Low;
    if n == 0 {
      AddZero(0);
    } else {
      var x, y := MulBits(a, Half(c), n - 1), MulBits(b, Half(c), n - 1);
      MulBitsAdd(a, b, Half(c), n - 1);
      XtimeAdd(x, y);
      PickAdd(Low(c), a, b);
      Regroup(Pick(Low(c), a), Pick(Low(c), b), Xtime(x), Xtime(y));
    }
  }

  lemma PickXtime(bit: bool, a: bv8)
    ensures Pick(bit, Xtime(a)) == Xtime(Pick(bit, a))
  {
    hide Xtime;
    XtimeZero();
  }

  lemma {:induction false} MulBitsXtime(a: bv8, b: bv8, n: nat)
    ensures MulBits(Xtime(a), b, n) == Xtime(MulBits(a, b, n))
    decreases n
  {
    hide Xtime, Pick, Add, Half, Low;
    if n == 0 {
      XtimeZero();
    } else {
      MulBitsXtime(a, Half(b), n - 1);
      XtimeAdd(Pick(Low(b), a), Xtime(MulBits(a, Half(b), n - 1)));
      PickXtime(Low(b), a);
    }
  }

  lemma {:induction false} MulBitsZero(b: bv8, n: nat)
    ensures MulBits(0, b, n) == 0
    decreases n
  {
    hide Xtime, Add, Half, Low;
    if n > 0 {
      MulBitsZero(Half(b), n - 1);
      XtimeZero();
      AddZero(0);
    }
  }

  // ----- field laws -----

  /** b has at most n significant bits. */
  predicate Fits(b: bv8, n: nat)
    decreases n
  {
    if n == 0 then b == 0 else Fits(Half(b), n - 1)
  }

  lemma AlwaysFits(b: bv8)
    ensures Fits(b, 8)
  {
    var b4 := Half(Half(Half(Half(b))));
    assert Fits(Half(Half(Half(Half(b4)))), 0);
    assert Fits(Half(Half(b4)), 2);
    assert Fits(b4, 4);
    assert Fits(Half(Half(b)), 6);
  }

  lemma {:induction false} MulBitsOne(b: bv8, n: nat)
    requires Fits(b, n)
    ensures MulBits(1, b, n) == b
    decreases n
  {
    hide Xtime, Pick, Add, Half, Low;
    if n > 0 {
      MulBitsOne(Half(b), n - 1);
      LowHalf(b);
    }
  }

  lemma PickMul(bit: bool, b: bv8)
    ensures Mul(Pick(bit, 1), b) == Pick(bit, b)
  {
    hide Mul;
    MulOneLeft(b);
    MulZeroLeft(b);
  }

  lemma MulOneLeft(b: bv8)
    ensures Mul(1, b) == b
  {
    hide Xtime, Pick, Add, Half, Low;
    AlwaysFits(b);
    MulBitsOne(b, 8);
  }

  lemma MulZeroLeft(b: bv8)
    ensures Mul(0, b) == 0
  {
    hide Xtime, Pick, Add, Half, Low;
    MulBitsZero(b, 8);
  }

  /** a is its low bit plus alpha times its other bits; multiplied by b. */
  lemma SplitLow(a: bv8, b: bv8)
    ensures Mul(a, b) == Add(Pick(Low(a), b), Xtime(Mul(Half(a), b)))
  {
    hide Xtime, Pick, Add, Half, Low;
    LowHalf(a);
    MulBitsAdd(Pick(Low(a), 1), Xtime(Half(a)), b, 8);
    MulBitsXtime(Half(a), b, 8);
    PickMul(Low(a), b);
  }

  lemma {:induction false} MulBitsComm(a: bv8, b: bv8, n: nat)
    requires Fits(a, n)
    ensures MulBits(b, a, n) == Mul(a, b)
    decreases n
  {
    hide Xtime, Pick, Add, Half, Low, Mul;
    if n == 0 {
      MulZeroLeft(b);
    } else {
      MulBitsComm(Half(a), b, n - 1);
      SplitLow(a, b);
    }
  }

  lemma MulComm(a: bv8, b: bv8)
    ensures Mul(a, b) == Mul(b, a)
  {
    hide Xtime, Pick, Add, Half, Low;
    AlwaysFits(a);
    MulBitsComm(a, b, 8);
  }

  lemma MulOne(a: bv8)
    ensures Mul(1, a) == a == Mul(a, 1)
  {
    hide Mul;
    MulOneLeft(a);
    MulComm(a, 1);
  }

  lemma MulZero(a: bv8)
    ensures Mul(0, a) == 0 == Mul(a, 0)
  {
    hide Mul;
    MulZeroLeft(a);
    MulComm(a, 0);
  }

  lemma MulAdd(a: bv8, b: bv8, c: bv8)
    ensures Mul(Add(a, b), c) == Add(Mul(a, c), Mul(b, c))
    ensures Mul(c, Add(a, b)) == Add(Mul(c, a), Mul(c, b))
  {
    hide Xtime, Pick, Add, Half, Low;
    MulBitsAdd(a, b, c, 8);
    MulComm(Add(a, b), c);
    MulComm(a, c);
    MulComm(b, c);
  }

  lemma MulXtime(a: bv8, b: bv8)
    ensures Mul(Xtime(a), b) == Xtime(Mul(a, b))
  {
    hide Xtime, Pick, Add, Half, Low;
    MulBitsXtime(a, b, 8);
  }

  lemma PickMulBoth(bit: bool, b: bv8, c: bv8)
    ensures Mul(Pick(bit, b), c) == Pick(bit, Mul(b, c))
  {
    hide Mul;
    MulZero(c);
  }

  lemma {:induction false} MulAssocBits(a: bv8, b: bv8, c: bv8, n: nat)
    requires Fits(a, n)
    ensures Mul(Mul(a, b), c) == Mul(a, Mul(b, c))
    decreases n
  {
    hide Xtime, Pick, Add, Half, Low, Mul;
    if n == 0 {
      MulZero(b);
      MulZero(c);
      MulZero(Mul(b, c));
    } else {
      var m := Mul(Half(a), b);
      MulAssocBits(Half(a), b, c, n - 1);
      SplitLow(a, b);
      SplitLow(a, Mul(b, c));
      MulAdd(Pick(Low(a), b), Xtime(m), c);
      MulXtime(m, c);
      PickMulBoth(Low(a), b, c);
    }
  }

  lemma MulAssoc(a: bv8, b: bv8, c: bv8)
    ensures Mul(Mul(a, b), c) == Mul(a, Mul(b, c))
  {
    hide Mul, Half;
    AlwaysFits(a);
    MulAssocBits(a, b, c, 8);
  }

  // ----- the reference: carry-less multiplication, then remainder modulo 0x11D -----

  /** The low n bits of b, least significant first. */
  function Bits(b: bv8, n: nat): (s: seq<bool>)
    ensures |s| == n
    decreases n
  {
    if n == 0 then [] else [Low(b)] + Bits(Half(b), n - 1)
  }

  function Wide(a: bv8): bv16 {
    a as bv16
  }

  function Add16(a: bv16, b: bv16): bv16 {
    a ^ b
  }

  function Shift16(a: bv16): bv16 {
    a << 1
  }

  function Pick16(bit: bool, w: bv16): bv16 {
    if bit then w else 0
  }

  /** The carry-less product of w with the polynomial whose coefficients are bits.
    * A 9-bit w and 8 bits, or an 8-bit w and 8 bits, lose nothing in 16 bits. */
  function CarryLess(w: bv16, bits: seq<bool>): bv16 {
    if bits == [] then 0 else Add16(Pick16(bits[0], w), Shift16(CarryLess(w, bits[1..])))
  }

  /** The same product by shift and add: the i-th bit contributes w shifted by i. */
  function ShiftAndAdd(w: bv16, bits: seq<bool>): bv16
    decreases |bits|
  {
    if bits == [] then 0 else Add16(if bits[0] then w else 0, ShiftAndAdd(w << 1, bits[1..]))
  }

  lemma {:induction false} CarryLessIs(w: bv16, bits: seq<bool>)
    ensures CarryLess(w, bits) == ShiftAndAdd(w, bits)
    decreases |bits|
  {
    if bits != [] {
      CarryLessIs(w << 1, bits[1..]);
      CarryLessShift(w, bits[1..]);
    }
  }

  lemma {:induction false} CarryLessShift(w: bv16, bits: seq<bool>)
    ensures CarryLess(Shift16(w), bits) == Shift16(CarryLess(w, bits))
  {
    if bits == [] {
      ShiftZero();
    } else {
      hide CarryLess, Add16, Pick16, Shift16;
      CarryLessShift(w, bits[1..]);
      Peel(w, bits);
      Peel(Shift16(w), bits);
      PickShift(bits[0], w);
      Shift16Add(Pick16(bits[0], w), Shift16(CarryLess(w, bits[1..])));
    }
  }

  lemma Peel(w: bv16, bits: seq<bool>)
    requires bits != []
    ensures CarryLess(w, bits) == Add16(Pick16(bits[0], w), Shift16(CarryLess(w, bits[1..])))
  {
  }

  lemma ShiftZero()
    ensures Shift16(0) == 0
  {
  }

  lemma PickShift(bit: bool, w: bv16)
    ensures Pick16(bit, Shift16(w)) == Shift16(Pick16(bit, w))
  {
  }

  lemma XtimeReduces(m: bv8)
    ensures Shift16(Wide(m)) == Add16(Pick16(m & 0x80 != 0, 0x11D), Wide(Xtime(m)))
  {
  }

  lemma Shift16Add(x: bv16, y: bv16)
    ensures Shift16(Add16(x, y)) == Add16(Shift16(x), Shift16(y))
  {
  }

  lemma Add16Assoc(a: bv16, b: bv16, c: bv16)
    ensures Add16(Add16(a, b), c) == Add16(a, Add16(b, c))
  {
  }

  lemma Add16Comm(a: bv16, b: bv16)
    ensures Add16(a, b) == Add16(b, a)
  {
  }

  lemma Regroup16(p: bv16, q: bv16, t: bv16, x: bv16)
    ensures Add16(p, Add16(q, Add16(t, x))) == Add16(Add16(t, q), Add16(p, x))
  {
    hide Add16;
    Add16Assoc(q, t, x);
    Add16Comm(q, t);
    Add16Assoc(p, Add16(t, q), x);
    Add16Comm(p, Add16(t, q));
    Add16Assoc(Add16(t, q), p, x);
  }

  lemma WideAdd(a: bv8, b: bv8)
    ensures Wide(Add(a, b)) == Add16(Wide(a), Wide(b))
  {
  }

  lemma WidePick(bit: bool, a: bv8)
    ensures Wide(Pick(bit, a)) == Pick16(bit, Wide(a))
  {
  }

  /** Mul is carry-less multiplication reduced by 0x11D: the carry-less product and the 8-bit
    * result differ by a multiple q of 0x11D. */
  lemma {:induction false} MulIsRemainder(a: bv8, b: bv8, n: nat) returns (q: seq<bool>)
    ensures |q| == n
    ensures CarryLess(Wide(a), Bits(b, n)) == Add16(CarryLess(0x11D, q), Wide(MulBits(a, b, n)))
    decreases n
  {
    if n == 0 {
      q := [];
    } else {
      hide Xtime, Pick, Add, Half, Low, Wide, Add16, Shift16, Pick16;
      var q' := MulIsRemainder(a, Half(b), n - 1);
      var m := MulBits(a, Half(b), n - 1);
      var top := m & 0x80 != 0;
      q := [top] + q';
      assert Bits(b, n)[1..] == Bits(Half(b), n - 1) && q[1..] == q';
      Shift16Add(CarryLess(0x11D, q'), Wide(m));
      XtimeReduces(m);
      WideAdd(Pick(Low(b), a), Xtime(m));
      WidePick(Low(b), a);
      Regroup16(Pick16(Low(b), Wide(a)), Shift16(CarryLess(0x11D, q')), Pick16(top, 0x11D), Wide(Xtime(m)));
    }
  }

  // ----- alpha generates the multiplicative group -----

  function AlphaPow(n: nat): bv8 {
    if n == 0 then 1 else Xtime(AlphaPow(n - 1))
  }

  lemma {:induction false} AlphaPowAdd(m: nat, n: nat)
    ensures AlphaPow(m + n) == Mul(AlphaPow(m), AlphaPow(n))
  {
    hide Xtime, Mul;
    if m == 0 {
      MulOne(AlphaPow(n));
    } else {
      AlphaPowAdd(m - 1, n);
      MulXtime(AlphaPow(m - 1), AlphaPow(n));
    }
  }

  /** Four steps along the powers of alpha. */
  lemma Hop(n: nat, v: bv8, w: bv8)
    requires AlphaPow(n) == v
    requires Xtime(Xtime(Xtime(Xtime(v)))) == w
    ensures AlphaPow(n + 1) == Xtime(v)
    ensures AlphaPow(n + 3) == Xtime(Xtime(Xtime(v)))
    ensures AlphaPow(n + 4) == w
  {
    hide Xtime;
    assert AlphaPow(n + 2) == Xtime(Xtime(v));
  }

  lemma Hop16(n: nat, v0: bv8, v1: bv8, v2: bv8, v3: bv8, v4: bv8)
    requires AlphaPow(n) == v0
    requires Xtime(Xtime(Xtime(Xtime(v0)))) == v1
    requires Xtime(Xtime(Xtime(Xtime(v1)))) == v2
    requires Xtime(Xtime(Xtime(Xtime(v2)))) == v3
    requires Xtime(Xtime(Xtime(Xtime(v3)))) == v4
    ensures AlphaPow(n + 12) == v3
    ensures AlphaPow(n + 16) == v4
  {
    hide Xtime;
    Hop(n, v0, v1);
    Hop(n + 4, v1, v2);
    Hop(n + 8, v2, v3);
    Hop(n + 12, v3, v4);
  }

  lemma LowerPowers()
    ensures AlphaPow(15) == 0x26 && AlphaPow(51) == 0x0A && AlphaPow(85) == 0xD6
    ensures AlphaPow(96) == 0xD9
  {
    assert AlphaPow(0) == 1;
    hide AlphaPow;
    Hop16(0, 0x01, 0x10, 0x1D, 0xCD, 0x4C);
    Hop16(16, 0x4C, 0xB4, 0x8F, 0x18, 0x9D);
    Hop16(32, 0x9D, 0x25, 0x6A, 0xEE, 0x46);
    Hop16(48, 0x46, 0x14, 0x5D, 0xB9, 0x5F);
    Hop16(64, 0x5F, 0x99, 0x65, 0x1E, 0xFD);
    Hop16(80, 0xFD, 0x6B, 0xFE, 0x5B, 0xD9);
    Hop(12, 0xCD, 0x4C);
    Hop(48, 0x46, 0x14);
    Hop(80, 0xFD, 0x6B);
    Hop(84, 0x6B, 0xFE);
  }

  lemma UpperPowers()
    requires AlphaPow(96) == 0xD9
    ensures AlphaPow(255) == 1
  {
    hide AlphaPow;
    Hop16(96, 0xD9, 0x11, 0x0D, 0xD0, 0x81);
    Hop16(112, 0x81, 0xF8, 0x3B, 0x97, 0x85);
    Hop16(128, 0x85, 0xB8, 0x4F, 0x84, 0xA8);
    Hop16(144, 0xA8, 0x52, 0x49, 0xE4, 0xE6);
    Hop16(160, 0xE6, 0xC6, 0xFC, 0x7B, 0xE3);
    Hop16(176, 0xE3, 0x96, 0x95, 0xA5, 0x82);
    Hop16(192, 0x82, 0xC8, 0x1C, 0xDD, 0x51);
    Hop16(208, 0x51, 0x79, 0xC3, 0xAC, 0x12);
    Hop16(224, 0x12, 0x3D, 0xF7, 0xCB, 0x2C);
    Hop(240, 0x2C, 0xFA);
    Hop(244, 0xFA, 0x1B);
    Hop(248, 0x1B, 0xAD);
    Hop(252, 0xAD, 0x02);
  }

  /** The powers that decide the order of alpha: 255 = 3 * 5 * 17, so it is enough that
    * alpha^255 is 1 while alpha^85, alpha^51 and alpha^15 are not. */
  lemma DecisivePowers()
    ensures AlphaPow(15) != 1 && AlphaPow(51) != 1 && AlphaPow(85) != 1
    ensures AlphaPow(255) == 1 == AlphaPow(0)
  {
    assert AlphaPow(0) == 1;
    hide AlphaPow;
    LowerPowers();
    UpperPowers();
  }

  lemma {:induction false} Periodic(d: nat, k: nat, r: nat)
    requires AlphaPow(d) == 1
    ensures AlphaPow(k * d + r) == AlphaPow(r)
  {
    hide Xtime, Mul;
    if k > 0 {
      Periodic(d, k - 1, r);
      AlphaPowAdd(d, (k - 1) * d + r);
      MulOne(AlphaPow(r));
      assert d + ((k - 1) * d + r) == k * d + r;
    }
  }

  /** A proper divisor of 255 divides 85, 51 or 15. */
  lemma ProperDivisors(d: nat, k: nat) returns (j: nat)
    requires d * k == 255 && d < 255
    ensures j * d == 85 || j * d == 51 || j * d == 15
  {
    if d <= 15 {
      assert d == 1 || d == 3 || d == 5 || d == 15;
      j := 15 / d;
    } else {
      assert 16 * k <= d * k;
      assert k == 3 || k == 5 || k == 15;
      j := if k == 3 then 1 else if k == 5 then 1 else 3;
    }
  }

  lemma {:induction false} NoSmallPeriod(d: nat)
    requires 0 < d < 255
    ensures AlphaPow(d) != 1
    decreases d
  {
    hide AlphaPow;
    if AlphaPow(d) == 1 {
      var k, r := 255 / d, 255 % d;
      assert k * d + r == 255;
      Periodic(d, k, r);
      DecisivePowers();
      if r > 0 {
        NoSmallPeriod(r);
      } else {
        var j := ProperDivisors(d, k);
        Periodic(d, j, 0);
      }
    }
  }

  /** alpha^0, ..., alpha^254 are distinct. */
  lemma AlphaPowInjective(i: nat, j: nat)
    requires i <= j < 255
    requires AlphaPow(i) == AlphaPow(j)
    ensures i == j
  {
    hide AlphaPow, Mul;
    if i < j {
      AlphaPowAdd(255 - j, i);
      AlphaPowAdd(255 - j, j);
      DecisivePowers();
      NoSmallPeriod(255 - j + i);
    }
  }

  lemma AlphaPowInverse(i: nat)
    requires i <= 255
    ensures Mul(AlphaPow(i), AlphaPow(255 - i)) == 1
    ensures AlphaPow(i) != 0
  {
    hide AlphaPow, Mul;
    AlphaPowAdd(i, 255 - i);
    DecisivePowers();
    MulZero(AlphaPow(255 - i));
  }

  // ----- every nonzero element is a power of alpha -----

  /** The table index of an element. */
  function Index(a: bv8): (i: nat)
    ensures i < 256
  {
    a as nat
  }

  lemma IndexInjective(a: bv8, b: bv8)
    requires Index(a) == Index(b)
    ensures a == b
  {
    assert (a as int) as bv8 == a;
  }

  lemma IndexZero(a: bv8)
    ensures Index(a) == 0 <==> a == 0
  {
    if Index(a) == 0 {
      IndexInjective(a, 0);
    }
  }

  function Interval(n: nat): (s: set<nat>)
    ensures forall v :: v in s <==> 1 <= v <= n
    ensures |s| == n
  {
    if n == 0 then {} else Interval(n - 1) + {n}
  }

  function PowersBelow(n: nat): set<nat> {
    if n == 0 then {} else PowersBelow(n - 1) + {Index(AlphaPow(n - 1))}
  }

  lemma {:induction false} InPowersBelow(n: nat, v: nat) returns (i: nat)
    requires v in PowersBelow(n)
    ensures i < n && Index(AlphaPow(i)) == v
  {
    hide AlphaPow, Index;
    if v == Index(AlphaPow(n - 1)) {
      i := n - 1;
    } else {
      i := InPowersBelow(n - 1, v);
    }
  }

  lemma {:induction false} PowersBelowSize(n: nat)
    requires n <= 255
    ensures |PowersBelow(n)| == n
    ensures PowersBelow(n) <= Interval(255)
  {
    hide AlphaPow, Index;
    if n > 0 {
      var m: nat := n - 1;
      PowersBelowSize(m);
      if Index(AlphaPow(m)) in PowersBelow(m) {
        var i := InPowersBelow(m, Index(AlphaPow(m)));
        IndexInjective(AlphaPow(i), AlphaPow(m));
        AlphaPowInjective(i, m);
      }
      AlphaPowInverse(m);
      IndexZero(AlphaPow(m));
    }
  }

  lemma {:induction false} SubsetSize(s: set<nat>, t: set<nat>)
    requires s <= t
    ensures |s| <= |t|
    decreases s
  {
    if s != {} {
      var v :| v in s;
      SubsetSize(s - {v}, t - {v});
    }
  }

  /** A subset as large as the whole set is the whole set. */
  lemma FullSubset(s: set<nat>, t: set<nat>, v: nat)
    requires s <= t && |s| == |t| && v in t
    ensures v in s
  {
    if v !in s {
      SubsetSize(s, t - {v});
    }
  }

  /** The discrete logarithm of a nonzero element. */
  lemma DiscreteLog(a: bv8) returns (i: nat)
    requires a != 0
    ensures i < 255 && AlphaPow(i) == a
  {
    hide AlphaPow, Index;
    PowersBelowSize(255);
    IndexZero(a);
    FullSubset(PowersBelow(255), Interval(255), Index(a));
    i := InPowersBelow(255, Index(a));
    IndexInjective(AlphaPow(i), a);
  }

  lemma NoZeroDivisors(a: bv8, b: bv8)
    ensures Mul(a, b) == 0 <==> a == 0 || b == 0
  {
    hide AlphaPow, Mul;
    MulZero(a);
    MulZero(b);
    if a != 0 {
      var i := DiscreteLog(a);
      AlphaPowInverse(i);
      MulAssoc(AlphaPow(255 - i), a, b);
      MulComm(AlphaPow(255 - i), a);
      MulOne(b);
      MulZero(AlphaPow(255 - i));
    }
  }
}
