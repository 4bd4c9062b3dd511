/** Natural-number arithmetic shared by the modules. */
module Numbers {
  function Min(a: nat, b: nat): nat {
    if a <= b then a else b
  }

  function Pow2(e: nat): (p: nat)
    ensures p >= 1
  {
    if e == 0 then 1 else 2 * Pow2(e - 1)
  }

  lemma {:induction false} Pow2Add(a: nat, b: nat)
    ensures Pow2(a + b) == Pow2(a) * Pow2(b)
  {
    if a > 0 {
      Pow2Add(a - 1, b);
      var x, y := Pow2(a - 1), Pow2(b);
      assert 2 * (x * y) == (2 * x) * y;
    } else {
      assert Pow2(0) * Pow2(b) == Pow2(b);
    }
  }

  lemma {:induction false} Pow2Mono(a: nat, b: nat)
    requires a <= b
    ensures Pow2(a) <= Pow2(b)
  {
    if a < b {
      Pow2Mono(a, b - 1);
    }
  }

  /** The powers the modules name by their values. */
  lemma Pow2Values()
    ensures Pow2(0) == 1 && Pow2(1) == 2 && Pow2(8) == 0x100 && Pow2(14) == 0x4000 && Pow2(16) == 0x1_0000
    ensures Pow2(20) == 0x10_0000 && Pow2(22) == 0x40_0000 && Pow2(24) == 0x100_0000 && Pow2(25) == 0x200_0000
    ensures Pow2(28) == 0x1000_0000 && Pow2(32) == 0x1_0000_0000 && Pow2(55) == 0x80_0000_0000_0000
  {
    assert Pow2(4) == 16;
    Pow2Add(4, 4);
    Pow2Add(6, 8);
    assert Pow2(6) == 64;
    Pow2Add(8, 8);
    Pow2Add(4, 16);
    Pow2Add(6, 16);
    Pow2Add(8, 16);
    Pow2Add(1, 24);
    Pow2Add(4, 24);
    Pow2Add(8, 24);
    Pow2Add(25, 30);
    Pow2Add(6, 24);
  }

  lemma MulMono(a: nat, b: nat, c: nat)
    requires a <= b
    ensures a * c <= b * c
  {
  }

  lemma MulAssoc(a: nat, b: nat, c: nat)
    ensures a * (b * c) == (a * b) * c
  {
  }

  lemma MulCancel(a: nat, b: nat, c: nat)
    requires a * c < b * c
    ensures a < b
  {
    if a >= b {
      MulMono(b, a, c);
    }
  }

  lemma DivisionBounds(n: nat, unit: nat)
    requires unit > 0
    ensures n / unit * unit <= n < (n / unit + 1) * unit
  {
  }

  lemma QuotientIs(x: nat, d: nat, q: nat)
    requires d > 0 && q * d <= x < (q + 1) * d
    ensures x / d == q
  {
    DivisionBounds(x, d);
    MulCancel(q, x / d + 1, d);
    MulCancel(x / d, q + 1, d);
  }

  /** Halving a quotient is dividing by twice the divisor. */
  lemma QuotientHalves(x: nat, d: nat, twice: nat)
    requires d > 0 && twice == 2 * d
    ensures x / twice == x / d / 2
  {
    DivisionBounds(x, d);
    var q := x / d;
    HalfBounds(x, d, q, q / 2, twice);
    QuotientIs(x, twice, q / 2);
  }

  lemma HalfBounds(x: nat, d: nat, q: nat, h: nat, twice: nat)
    requires twice == 2 * d && q * d <= x < (q + 1) * d && 2 * h <= q <= 2 * h + 1
    ensures h * twice <= x < (h + 1) * twice
  {
    MulMono(2 * h, q, d);
    MulMono(q + 1, 2 * h + 2, d);
    MulAssoc(h, 2, d);
    MulAssoc(h + 1, 2, d);
  }
}
