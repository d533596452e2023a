/** What the operators compute, said without their definitions. */
module Arithmetic {
  import opened Sir
  import A = Alignment

  // ---------------------------------------------------------------------------------------------
  // Division

  function Abs(x: int): nat { if x < 0 then -x else x }

  /** Quotient and remainder as C has them: the remainder is smaller than the divisor and has the dividend's sign. */
  predicate DividesInto(l: int, r: int, q: int, m: int) {
    l == q * r + m && Abs(m) < Abs(r) && (m > 0 ==> l > 0) && (m < 0 ==> l < 0)
  }

  /** Division fails for a zero divisor and for the one quotient that does not fit, and truncates otherwise. */
  lemma DivisionTruncates(l: i64, r: i64)
    ensures Binary(Div, l, r).None? <==> r == 0 || (l == -TWO_63 && r == -1)
    ensures Binary(Mod, l, r).None? <==> r == 0 || (l == -TWO_63 && r == -1)
    ensures Binary(Div, l, r).Some? ==> DividesInto(l, r, Binary(Div, l, r).value, Binary(Mod, l, r).value)
  {
    if Binary(Div, l, r).Some? {
      var m := TruncDivides(l, r);
      QuotientFits(l, r, TruncDiv(l, r), m);
    }
  }

  lemma TruncDivides(l: int, r: int) returns (m: int)
    requires r != 0
    ensures DividesInto(l, r, TruncDiv(l, r), m)
  {
    hide DividesInto;
    if l >= 0 {
      m := Straight(l, r);
    } else {
      hide TruncDiv;
      m := -((-l) % r);
      assert TruncDiv(l, r) == -((-l) / r) by { Mirrored(l, r); }
      Opposite(l, r, (-l) / r, (-l) % r) by { EuclidSays(-l, r); }
    }
  }

  lemma Mirrored(l: int, r: int)
    requires l < 0 && r != 0
    ensures TruncDiv(l, r) == -((-l) / r)
  {}

  lemma Straight(l: nat, r: int) returns (m: int)
    requires r != 0
    ensures DividesInto(l, r, l / r, m)
  {
    hide Abs;
    m := l % r;
    EuclidSays(l, r);
  }

  lemma Opposite(l: int, r: int, d: int, e: int)
    requires -l == d * r + e && l < 0 && 0 <= e < Abs(r)
    ensures DividesInto(l, r, -d, -e)
  {
    hide Abs;
    NegatedProduct(d, r);
    assert l == -d * r + -e;
    assert Abs(-e) == e by { AbsOf(e); }
  }

  lemma AbsOf(e: int)
    requires e >= 0
    ensures Abs(-e) == e && Abs(e) == e
  {}

  lemma EuclidSays(n: int, r: int)
    requires r != 0
    ensures n == n / r * r + n % r && 0 <= n % r < Abs(r) && Abs(n % r) == n % r
  {}

  lemma NegatedProduct(a: int, b: int)
    ensures -a * b == -(a * b)
  {}

  lemma QuotientFits(l: i64, r: i64, q: int, m: int)
    requires r != 0 && !(l == -TWO_63 && r == -1) && DividesInto(l, r, q, m)
    ensures -TWO_63 <= q < TWO_63 && -TWO_63 <= m < TWO_63
  {
    if r == 1 {
      assert q * r == q;
    } else if r == -1 {
      assert q * r == -q;
    } else {
      AbsOfProduct(q, r);
      AtLeastTwice(Abs(q), Abs(r));
    }
  }

  lemma AbsOfProduct(a: int, b: int)
    ensures Abs(a * b) == Abs(a) * Abs(b)
  {
    NegatedProduct(a, b);
    NegatedProduct(b, a);
    NegatedProduct(a, -b);
    if a >= 0 && b >= 0 { NotNegative(a, b); }
    else if a >= 0 { NotNegative(a, -b); }
    else if b >= 0 { NotNegative(-a, b); }
    else { NotNegative(-a, -b); }
  }

  lemma NotNegative(a: nat, b: nat)
    ensures a * b >= 0
  {}

  lemma AtLeastTwice(a: nat, b: nat)
    requires b >= 2
    ensures a * b >= 2 * a
  {
    NotNegative(a, b - 2);
    assert a * b == 2 * a + a * (b - 2);
  }

  lemma AtLeast(a: nat, b: nat)
    requires a >= 1
    ensures a * b >= b
  {
    NotNegative(a - 1, b);
    assert a * b == b + (a - 1) * b;
  }

  /** No other pair does that. */
  lemma DivisionIsUnique(l: int, r: int, q: int, m: int, q': int, m': int)
    requires r != 0 && DividesInto(l, r, q, m) && DividesInto(l, r, q', m')
    ensures q == q' && m == m'
  {
    assert (q - q') * r == q * r - q' * r == m' - m;
    if q != q' {
      AbsOfProduct(q - q', r);
      AtLeast(Abs(q - q'), Abs(r));
    }
  }

  // ---------------------------------------------------------------------------------------------
  // Sums, products and shifts

  /** Sums, differences, products and left shifts are right modulo 2^64. */
  lemma ResultsWrap(l: i64, r: i64)
    ensures Binary(Add, l, r).Some? && (Binary(Add, l, r).value - (l + r)) % TWO_64 == 0
    ensures Binary(Sub, l, r).Some? && (Binary(Sub, l, r).value - (l - r)) % TWO_64 == 0
    ensures Binary(Mul, l, r).Some? && (Binary(Mul, l, r).value - l * r) % TWO_64 == 0
    ensures Binary(Shl, l, r).Some? && (Binary(Shl, l, r).value - l * Pow2(r % 64)) % TWO_64 == 0
  {
    hide Wrap, Pow2;
  }

  /** Element `i` of an array at `base` is `i` sizes of an element further on; a cast keeps the value. */
  lemma AddressesWrap(base: i64, i: i64, size: i64)
    ensures var a := Compute(Gep, [Int(base), Int(i), Int(size)]);
      a.Some? && (a.value - (base + i * size)) % TWO_64 == 0
    ensures Compute(Cast, [Int(base)]) == Some(base)
  {
    hide Wrap;
  }

  /** Shifting right rounds down. */
  lemma ShiftRightFloors(l: i64, r: i64)
    ensures Binary(Shr, l, r).Some?
    ensures var q, p := Binary(Shr, l, r).value, Pow2(r % 64); q * p <= l < (q + 1) * p
  {
    hide Pow2;
    var p := Pow2(r % 64);
    var q := l / p;
    assert l == q * p + l % p;
    assert (q + 1) * p == q * p + p;
    FloorFits(l, p, q);
  }

  lemma FloorFits(l: i64, p: int, q: int)
    requires p > 0 && q * p <= l < (q + 1) * p
    ensures -TWO_63 <= q < TWO_63
  {
    if q >= 0 {
      AtLeast(p, q);
    } else {
      AtLeast(p, -(q + 1));
      NegatedProduct(q + 1, p);
    }
  }

  // ---------------------------------------------------------------------------------------------
  // Bits

  /** Bit `k` of a number in two's complement. */
  function Bit(x: i64, k: nat): bool { Unsigned(x) / Pow2(k) % 2 == 1 }

  function OnBits(op: Opcode, a: bool, b: bool): bool
    requires op.And? || op.Or? || op.Xor?
  {
    match op
    case And => a && b
    case Or => a || b
    case Xor => a != b
  }

  /** The bitwise operators work on each of the 64 bits. */
  lemma BitwiseOnBits(op: Opcode, l: i64, r: i64, k: nat)
    requires (op.And? || op.Or? || op.Xor?) && k < 64
    ensures Binary(op, l, r).Some? && Bit(Binary(op, l, r).value, k) == OnBits(op, Bit(l, k), Bit(r, k))
  {
    hide Bitwise, Pow2, Unsigned, Signed;
    Pow2Of64();
    BitwiseBit(op, Unsigned(l), Unsigned(r), 64, k);
    SignedBack(Bitwise(op, Unsigned(l), Unsigned(r), 64));
  }

  lemma SignedBack(u: nat)
    requires u < TWO_64
    ensures Unsigned(Signed(u)) == u
  {}

  lemma {:induction false} BitwiseBit(op: Opcode, a: nat, b: nat, n: nat, k: nat)
    requires (op.And? || op.Or? || op.Xor?) && k < n
    ensures (Bitwise(op, a, b, n) / Pow2(k) % 2 == 1) == OnBits(op, a / Pow2(k) % 2 == 1, b / Pow2(k) % 2 == 1)
    decreases n
  {
    if k > 0 {
      BitwiseBit(op, a / 2, b / 2, n - 1, k - 1);
      HalveFirst(a, k);
      HalveFirst(b, k);
      HalveFirst(Bitwise(op, a, b, n), k);
      assert Bitwise(op, a, b, n) / 2 == Bitwise(op, a / 2, b / 2, n - 1);
    }
  }

  lemma HalveFirst(a: nat, k: nat)
    requires k > 0
    ensures a / Pow2(k) == a / 2 / Pow2(k - 1)
  {
    var p := Pow2(k - 1);
    var q, m := a / 2 / p, a / 2 % p;
    assert a / 2 == q * p + m;
    assert a == q * (2 * p) + (2 * m + a % 2);
    A.DivisionIs(a, 2 * p, q, 2 * m + a % 2);
  }

  /** The complement is exclusive or with all ones; it is one below the negation. */
  lemma ComplementIs(x: i64)
    ensures BitOp(Xor, x, -1) == -1 - x
  {
    hide Bitwise, Pow2;
    Pow2Of64();
    XorOnes(Unsigned(x), 64);
  }

  lemma {:induction false} XorOnes(a: nat, n: nat)
    requires a < Pow2(n)
    ensures Bitwise(Xor, a, Pow2(n) - 1, n) == Pow2(n) - 1 - a
  {
    if n > 0 {
      var p := Pow2(n - 1);
      A.DivisionIs(2 * p - 1, 2, p - 1, 1);
      XorOnes(a / 2, n - 1);
      assert Bitwise(Xor, a, 2 * p - 1, n) == 2 * Bitwise(Xor, a / 2, p - 1, n - 1) + (1 - a % 2);
    }
  }
}
