/** The floating-point split of the memory budget (crates/porxie/src/cache.rs), on exact IEEE 754 binary64
    arithmetic: every value is a natural number times a fixed power of two, so rounding a positive normal
    number means keeping its 53 leading bits, ties to even. */
module CacheSizes {
  import opened Numbers
  import opened Wrappers

  const U64_MAX: nat := 0xffff_ffff_ffff_ffff
  const PRECISION: nat := 0x20_0000_0000_0000 // 2^53

  /** How many low bits must go so that 53 remain. */
  function Shift(n: nat): (s: nat)
    ensures n < PRECISION * Pow2(s)
    ensures s > 0 ==> n >= PRECISION / 2 * Pow2(s)
  {
    if n < PRECISION then 0
    else
      var s := Shift(n / 2);
      assert s == 0 ==> Pow2(s) == 1;
      s + 1
  }

  /** Round to a multiple of `unit`, ties to the even multiple. */
  function RoundTo(n: nat, unit: nat): nat
    requires unit > 0
  {
    var q, r := n / unit, n % unit;
    if 2 * r > unit || (2 * r == unit && q % 2 == 1) then (q + 1) * unit else q * unit
  }

  /** Round to nearest, ties to even, at 53 significant bits. */
  function RoundF64(n: nat): nat {
    RoundTo(n, Pow2(Shift(n)))
  }

  predicate Scaled(n: nat, q: nat, e: nat) {
    n == q * Pow2(e)
  }

  /** The values with at most 53 significant bits. */
  ghost predicate IsF64(n: nat) {
    exists q: nat, e: nat :: q < PRECISION && Scaled(n, q, e)
  }

  function Distance(a: nat, b: nat): nat {
    if a <= b then b - a else a - b
  }

  /** A 53-bit value of a finer scale stays below 2^52 coarse units. */
  lemma FinerIsSmaller(q: nat, e: nat, s: nat)
    requires q < PRECISION && e < s
    ensures q * Pow2(e) < PRECISION / 2 * Pow2(s)
  {
    hide Pow2;
    Pow2Mono(e, s - 1);
    FinerProduct(q, Pow2(e), Pow2(s - 1));
    HalvesUnit(s);
  }

  lemma HalvesUnit(s: nat)
    requires s > 0
    ensures Pow2(s) == 2 * Pow2(s - 1)
  {
  }

  lemma FinerProduct(q: nat, small: nat, half: nat)
    requires q < PRECISION && small <= half && half > 0
    ensures q * small < PRECISION / 2 * (2 * half)
  {
    SwappedMono(q, small, half);
    MulMono(q, PRECISION - 1, half);
    LastProduct(half);
  }

  lemma SwappedMono(q: nat, small: nat, half: nat)
    requires small <= half
    ensures q * small <= q * half
  {
  }

  lemma LastProduct(half: nat)
    requires half > 0
    ensures (PRECISION - 1) * half < PRECISION / 2 * (2 * half)
  {
  }

  /** At or above 2^52 units, a 53-bit value is a whole number of units. */
  lemma RepresentableIsMultiple(y: nat, s: nat) returns (m: nat)
    requires IsF64(y) && y >= PRECISION / 2 * Pow2(s)
    ensures y == m * Pow2(s)
  {
    var q: nat, e: nat :| q < PRECISION && Scaled(y, q, e);
    if e < s {
      FinerIsSmaller(q, e, s);
      assert false;
    }
    Pow2Add(e - s, s);
    m := q * Pow2(e - s);
    MulAssoc(q, Pow2(e - s), Pow2(s));
  }

  lemma NoMultipleBetween(q: nat, m: nat, unit: nat)
    ensures !(q * unit < m * unit < (q + 1) * unit)
  {
    if m <= q {
      MulMono(m, q, unit);
    } else {
      MulMono(q + 1, m, unit);
    }
  }

  /** Nothing representable lies strictly between a number and its two neighbouring multiples of a unit. */
  lemma NoneBetween(n: nat, q: nat, y: nat)
    requires IsF64(y)
    requires q * Pow2(Shift(n)) <= n < (q + 1) * Pow2(Shift(n))
    ensures y <= q * Pow2(Shift(n)) || y >= (q + 1) * Pow2(Shift(n))
  {
    var s := Shift(n);
    if s > 0 {
      EnoughUnits(n, q, Pow2(s));
      if y >= q * Pow2(s) {
        var m := RepresentableIsMultiple(y, s);
        NoMultipleBetween(q, m, Pow2(s));
      }
    }
  }

  lemma EnoughUnits(n: nat, q: nat, unit: nat)
    requires q * unit <= n < (q + 1) * unit && n >= PRECISION / 2 * unit
    ensures q * unit >= PRECISION / 2 * unit
  {
    MulCancel(PRECISION / 2, q + 1, unit);
    MulMono(PRECISION / 2, q, unit);
  }

  /** The two candidates of a rounding and the one taken. */
  lemma RoundToShape(n: nat, unit: nat) returns (q: nat, low: nat)
    requires unit > 0
    ensures q == n / unit && low == q * unit && low + unit == (q + 1) * unit
    ensures low <= n < low + unit
    ensures RoundTo(n, unit)
            == if 2 * (n - low) > unit || (2 * (n - low) == unit && q % 2 == 1) then low + unit else low
  {
    q := n / unit;
    low := q * unit;
    DivisionBounds(n, unit);
    assert n % unit == n - low;
  }

  /** Rounding yields a 53-bit value. */
  lemma RoundIsF64(n: nat)
    ensures IsF64(RoundF64(n))
  {
    var s := Shift(n);
    var q, low := RoundToShape(n, Pow2(s));
    MultipleIsF64(n, q, s);
  }

  lemma MultipleIsF64(n: nat, q: nat, s: nat)
    requires q * Pow2(s) <= n < PRECISION * Pow2(s)
    ensures IsF64(q * Pow2(s)) && IsF64((q + 1) * Pow2(s))
  {
    var unit := Pow2(s);
    MulCancel(q, PRECISION, unit);
    assert Scaled(q * unit, q, s);
    if q + 1 == PRECISION {
      assert (q + 1) * unit == PRECISION / 2 * (2 * unit);
      assert Scaled((q + 1) * unit, PRECISION / 2, s + 1);
    } else {
      assert Scaled((q + 1) * unit, q + 1, s);
    }
  }

  /** Rounding is to nearest: no 53-bit value is closer. */
  lemma RoundIsNearest(n: nat, y: nat)
    requires IsF64(y)
    ensures Distance(RoundF64(n), n) <= Distance(y, n)
  {
    var q, low := RoundToShape(n, Pow2(Shift(n)));
    NoneBetween(n, q, y);
  }

  /** Hence rounding never crosses a 53-bit value. */
  lemma RoundRespects(n: nat, y: nat)
    requires IsF64(y)
    ensures y <= n ==> y <= RoundF64(n)
    ensures n <= y ==> RoundF64(n) <= y
  {
    var q, low := RoundToShape(n, Pow2(Shift(n)));
    NoneBetween(n, q, y);
  }

  /** The binary64 constant written 0.10, in units of 2^-55. */
  const TENTH: nat := 3602879701896397
  const SCALE: nat := 0x80_0000_0000_0000 // 2^55

  const SHARE_CAP: nat := 48_000_000

  /** `(x as f64 * 0.10) as u64`: convert, multiply and round, truncate and saturate. */
  function TenPercent(x: nat): nat {
    Min(RoundF64(RoundF64(x) * TENTH) / SCALE, U64_MAX)
  }

  /** The constant is the binary64 value nearest to one tenth (binary64 values there are 2^-56 apart). */
  lemma TenthIsNearest(y: nat)
    ensures Distance(10 * (2 * TENTH), 2 * SCALE) <= Distance(10 * y, 2 * SCALE)
  {
  }

  lemma IsF64Times(q: nat, e: nat, n: nat)
    requires q < PRECISION && n == q * Pow2(e)
    ensures IsF64(n)
  {
    assert Scaled(n, q, e);
  }

  /** Below the cap, the truncated product is the integer tenth. */
  lemma SmallTenPercent(x: nat)
    requires x < 10 * SHARE_CAP
    ensures TenPercent(x) == x / 10
  {
    Pow2Values();
    IsF64Times(x, 0, x);
    RoundRespects(x, x);
    assert RoundF64(x) == x;
    var product := x * TENTH;
    var q := x / 10;
    IsF64Times(q, 55, q * SCALE);
    RoundRespects(product, q * SCALE);
    var above := ((q + 1) * 0x800_0000 - 1) * 0x1000_0000;
    IsF64Times((q + 1) * 0x800_0000 - 1, 28, above);
    RoundRespects(product, above);
    assert q * SCALE <= RoundF64(product) < (q + 1) * SCALE;
  }

  /** From there on, the cap applies. */
  lemma LargeTenPercent(x: nat)
    requires 10 * SHARE_CAP <= x
    ensures TenPercent(x) >= SHARE_CAP
  {
    Pow2Values();
    IsF64Times(10 * SHARE_CAP, 0, 10 * SHARE_CAP);
    RoundRespects(x, 10 * SHARE_CAP);
    IsF64Times(SHARE_CAP, 55, SHARE_CAP * SCALE);
    RoundRespects(RoundF64(x) * TENTH, SHARE_CAP * SCALE);
  }

  datatype Sizes = Sizes(blob: nat, ownership: nat, policy: nat, identity: nat)
  datatype SizeError = AllocationUnderflow

  function CheckedSub(a: nat, b: nat): Option<nat> {
    if b <= a then Some(a - b) else None
  }

  function Compute(memory: nat): Result<Sizes, SizeError> {
    var policy := Min(TenPercent(memory), SHARE_CAP);
    var ownership := Min(TenPercent(memory), SHARE_CAP);
    var identity := Min(TenPercent(memory), SHARE_CAP);
    match CheckedSub(memory, policy)
    case None => Failure(AllocationUnderflow)
    case Some(a) =>
      match CheckedSub(a, ownership)
      case None => Failure(AllocationUnderflow)
      case Some(b) =>
        match CheckedSub(b, identity)
        case None => Failure(AllocationUnderflow)
        case Some(blob) => Success(Sizes(blob, ownership, policy, identity))
  }

  /** The floating-point split is the integer split: the underflow is unreachable, each small share is
      min(x / 10, 48 MB), the four shares add up to the whole and the blob cache gets at least 70%. */
  lemma SplitIsExact(memory: nat)
    requires 0 < memory <= U64_MAX
    ensures Compute(memory).Success?
    ensures var s := Compute(memory).value;
            && s.policy == s.ownership == s.identity == Min(memory / 10, SHARE_CAP)
            && s.blob + s.ownership + s.policy + s.identity == memory
            && 10 * s.blob >= 7 * memory
  {
    if memory < 10 * SHARE_CAP {
      SmallTenPercent(memory);
    } else {
      LargeTenPercent(memory);
    }
  }
}
