/** Rounding up to a power of two, as the source does it with a mask. */
module Alignment {
  import opened Sir

  ghost predicate IsPow2(a: nat) { exists k: nat :: a == Pow2(k) }

  /** The least multiple of `a` that is not below `n`. */
  function AlignUp(n: nat, a: nat): (r: nat)
    requires a > 0
    ensures n <= r < n + a && r % a == 0
  {
    var m := n + a - 1;
    Remainders(m, a);
    m - m % a
  }

  lemma Remainders(m: nat, a: nat)
    requires a > 0
    ensures (m - m % a) % a == 0
  {
    var q := m / a;
    assert m - m % a == q * a;
    MultipleOf(q, a);
  }

  lemma {:induction false} MultipleOf(q: nat, a: nat)
    requires a > 0
    ensures (q * a) % a == 0
  {
    if q > 0 {
      MultipleOf(q - 1, a);
      assert q * a == (q - 1) * a + a;
      AddMultiple((q - 1) * a, a);
    }
  }

  lemma AddMultiple(x: nat, a: nat)
    requires a > 0 && x % a == 0
    ensures (x + a) % a == 0
  {
    var q := x / a;
    assert x + a == (q + 1) * a;
    assert (x + a) / a == q + 1 by {
      DivisionIs(x + a, a, q + 1, 0);
    }
  }

  lemma DivisionIs(n: nat, a: nat, q: nat, r: nat)
    requires a > 0 && n == q * a + r && r < a
    ensures n / a == q && n % a == r
  {
    var q' := n / a;
    assert n == q' * a + n % a;
    assert (q' - q) * a == q' * a - q * a == r - n % a;
    if q' != q { AtLeastOnce(if q' > q then q' - q else q - q', a); }
  }

  lemma AtLeastOnce(d: nat, a: nat)
    requires d >= 1
    ensures d * a >= a
  {
    assert d * a == (d - 1) * a + a;
  }

  lemma {:induction false} Pow2Grows(i: nat, j: nat)
    requires i < j
    ensures Pow2(i) < Pow2(j)
  {
    if i + 1 < j { Pow2Grows(i, j - 1); }
  }

  /** Of two powers of two the smaller divides the larger. */
  lemma Pow2Divides(a: nat, b: nat)
    requires IsPow2(a) && IsPow2(b) && a <= b
    ensures a > 0 && b % a == 0
  {
    var i: nat, j: nat :| a == Pow2(i) && b == Pow2(j);
    if i <= j {
      Pow2Sum(j - i, i);
      MultipleOf(Pow2(j - i), a);
    } else {
      Pow2Grows(j, i);
    }
  }

  lemma DividesTransitive(n: nat, b: nat, a: nat)
    requires a > 0 && b > 0 && n % b == 0 && b % a == 0
    ensures n % a == 0
  {
    var p, q := n / b, b / a;
    assert n == p * b == p * (q * a) == (p * q) * a;
    MultipleOf(p * q, a);
  }

  /** The mask `& ~(a - 1)` clears the bits below a power of two. */
  lemma {:induction false} MaskClearsLowBits(x: nat, k: nat, w: nat)
    requires k <= w && x < Pow2(w)
    ensures Pow2(k) <= Pow2(w) && Bitwise(And, x, Pow2(w) - Pow2(k), w) == x - x % Pow2(k)
    decreases w
  {
    if w == 0 {
      assert Pow2(0) == 1;
    } else if k == 0 {
      AllOnes(x, w);
    } else {
      MaskClearsLowBits(x / 2, k - 1, w - 1);
      var h := Pow2(w - 1) - Pow2(k - 1);
      assert Pow2(w) - Pow2(k) == 2 * h;
      EvenMask(x, h, w);
      HalfRemainder(x, Pow2(k - 1));
    }
  }

  lemma EvenMask(x: nat, h: nat, w: nat)
    requires w > 0
    ensures Bitwise(And, x, 2 * h, w) == 2 * Bitwise(And, x / 2, h, w - 1)
  {
    assert 2 * h / 2 == h && 2 * h % 2 == 0;
  }

  lemma HalfRemainder(x: nat, p: nat)
    requires p > 0
    ensures 2 * (x / 2 - (x / 2) % p) == x - x % (2 * p)
  {
    var h := x / 2;
    var q, r := h / p, h % p;
    assert h == q * p + r && r <= p - 1;
    assert x == q * (2 * p) + (2 * r + x % 2);
    DivisionIs(x, 2 * p, q, 2 * r + x % 2);
  }

  lemma {:induction false} AllOnes(x: nat, w: nat)
    requires x < Pow2(w)
    ensures Pow2(w) >= 1 && Bitwise(And, x, Pow2(w) - 1, w) == x
  {
    if w > 0 {
      AllOnes(x / 2, w - 1);
      assert (Pow2(w) - 1) / 2 == Pow2(w - 1) - 1 && (Pow2(w) - 1) % 2 == 1;
    }
  }

  /** The source's rounding with a mask is `AlignUp`, as long as nothing overflows. */
  lemma MaskAligns(n: nat, k: nat, w: nat)
    requires k <= w && n + Pow2(k) - 1 < Pow2(w)
    ensures Pow2(k) > 0 && Pow2(k) <= Pow2(w)
    ensures Bitwise(And, n + Pow2(k) - 1, Pow2(w) - Pow2(k), w) == AlignUp(n, Pow2(k))
  {
    MaskClearsLowBits(n + Pow2(k) - 1, k, w);
  }
}
