/** Two's-complement integers of any width: bit patterns, their signed and unsigned
    readings, and the arithmetic facts the instruction-selection proofs rest on. */
module Bits {

  function Pow2(n: nat): (r: int)
    ensures r >= 1
  {
    if n == 0 then 1 else 2 * Pow2(n - 1)
  }

  /** The w-bit pattern of a mathematical integer. */
  function Pat(w: nat, x: int): (p: nat)
    ensures p < Pow2(w)
  {
    x % Pow2(w)
  }

  /** The two's-complement reading of a w-bit pattern. */
  function Signed(w: nat, p: nat): int {
    if w > 0 && p >= Pow2(w - 1) then p - Pow2(w) else p
  }

  function Abs(x: int): nat {
    if x < 0 then -x else x
  }

  /** Division that truncates toward zero. */
  function TDiv(x: int, y: int): int
    requires y != 0
  {
    if (x < 0) == (y < 0) then Abs(x) / Abs(y) else -(Abs(x) / Abs(y))
  }

  /** Remainder with the sign of the dividend. */
  function TRem(x: int, y: int): int
    requires y != 0
  {
    if x < 0 then -(Abs(x) % Abs(y)) else Abs(x) % Abs(y)
  }

  function Bitwise(f: (nat, nat) -> bool, w: nat, a: nat, b: nat): (r: nat)
    ensures r < Pow2(w)
  {
    if w == 0 then 0
    else (if f(a % 2, b % 2) then 1 else 0) + 2 * Bitwise(f, w - 1, a / 2, b / 2)
  }

  function BitAnd(w: nat, a: nat, b: nat): nat { Bitwise((x, y) => x == 1 && y == 1, w, a, b) }
  function BitOr(w: nat, a: nat, b: nat): nat { Bitwise((x, y) => x == 1 || y == 1, w, a, b) }
  function BitXor(w: nat, a: nat, b: nat): nat { Bitwise((x, y) => x != y, w, a, b) }

  /** n steps of size i: the product, kept free of multiplication for the provers' sake. */
  function Scaled(i: int, n: nat): int {
    if n == 0 then 0 else i + Scaled(i, n - 1)
  }

  lemma {:induction false} ScaledIsProduct(i: int, n: nat)
    ensures Scaled(i, n) == i * n
  {
    if n > 0 {
      ScaledIsProduct(i, n - 1);
    }
  }

  // ----- arithmetic modulo M -----

  lemma {:induction false} ModShift(x: int, k: int, m: int)
    requires m > 0
    ensures (x + k * m) % m == x % m
    decreases Abs(k)
  {
    if k > 0 {
      ModShift(x, k - 1, m);
      assert x + k * m == (x + (k - 1) * m) + m;
      ModStep(x + (k - 1) * m, m);
    } else if k < 0 {
      ModShift(x, k + 1, m);
      assert x + (k + 1) * m == (x + k * m) + m;
      ModStep(x + k * m, m);
    }
  }

  lemma ModStep(y: int, m: int)
    requires m > 0
    ensures (y + m) % m == y % m
  {
    var q, r := y / m, y % m;
    assert y + m == (q + 1) * m + r;
    QuotientUnique(y + m, q + 1, r, m);
  }

  lemma QuotientUnique(y: int, q: int, r: int, m: int)
    requires m > 0 && 0 <= r < m && y == q * m + r
    ensures y / m == q && y % m == r
  {
    var q', r' := y / m, y % m;
    assert y == q' * m + r';
    assert (q - q') * m == q * m - q' * m;
    if q > q' {
      MulMono(q - q', m);
    } else if q < q' {
      MulMono(q' - q, m);
    }
  }

  lemma MulMono(k: int, m: int)
    requires k >= 1 && m >= 0
    ensures k * m >= m
  {
    assert k * m == (k - 1) * m + m;
  }

  /** Two integers have the same pattern when they differ by a multiple of the modulus. */
  lemma ModEq(x: int, y: int, k: int, m: int)
    requires m > 0 && x == y + k * m
    ensures x % m == y % m
  {
    ModShift(y, k, m);
  }

  lemma ModAdd(x: int, y: int, m: int)
    requires m > 0
    ensures (x % m + y % m) % m == (x + y) % m
  {
    assert x + y == (x % m + y % m) + (x / m + y / m) * m;
    ModEq(x + y, x % m + y % m, x / m + y / m, m);
  }

  lemma ModSub(x: int, y: int, m: int)
    requires m > 0
    ensures (x % m - y % m) % m == (x - y) % m
  {
    assert x - y == (x % m - y % m) + (x / m - y / m) * m;
    ModEq(x - y, x % m - y % m, x / m - y / m, m);
  }

  lemma ModMul(x: int, y: int, m: int)
    requires m > 0
    ensures ((x % m) * (y % m)) % m == (x * y) % m
  {
    var a, b, q, p := x % m, y % m, x / m, y / m;
    assert x == a + q * m && y == b + p * m;
    var k := a * p + q * b + q * p * m;
    calc {
      x * y;
      (a + q * m) * (b + p * m);
      a * b + a * (p * m) + (q * m) * b + (q * m) * (p * m);
      a * b + (a * p) * m + (q * b) * m + (q * p * m) * m;
      a * b + k * m;
    }
    ModEq(x * y, a * b, k, m);
  }

  lemma ModMod(x: int, m: int, k: nat)
    requires m > 0 && k > 0
    ensures (x % (m * k)) % m == x % m
  {
    var n := m * k;
    assert x == x % n + (x / n) * n;
    assert (x / n) * n == ((x / n) * k) * m;
    ModEq(x, x % n, (x / n) * k, m);
  }

  lemma ModSmall(x: int, m: int)
    requires 0 <= x < m
    ensures x % m == x
  {}

  // ----- powers of two -----

  lemma {:induction false} Pow2Add(a: nat, b: nat)
    ensures Pow2(a + b) == Pow2(a) * Pow2(b)
  {
    if a > 0 {
      Pow2Add(a - 1, b);
      assert Pow2(a + b) == 2 * Pow2(a + b - 1);
    }
  }

  lemma {:induction false} Pow2Mono(a: nat, b: nat)
    requires a <= b
    ensures Pow2(a) <= Pow2(b)
  {
    Pow2Add(a, b - a);
    assert Pow2(a) * Pow2(b - a) >= Pow2(a);
  }

  lemma SignedOfPat(w: nat, p: nat)
    requires w >= 1 && p < Pow2(w)
    ensures -Pow2(w - 1) <= Signed(w, p) < Pow2(w - 1)
    ensures Pat(w, Signed(w, p)) == p
  {
    var m := Pow2(w);
    assert m == 2 * Pow2(w - 1);
    ModSmall(p, m);
    if p >= Pow2(w - 1) {
      ModEq(p - m, p, -1, m);
    }
  }

  lemma PatOfSigned(w: nat, v: int)
    requires w >= 1 && -Pow2(w - 1) <= v < Pow2(w - 1)
    ensures Signed(w, Pat(w, v)) == v
  {
    var m := Pow2(w);
    assert m == 2 * Pow2(w - 1);
    if v < 0 {
      ModEq(v, v + m, -1, m);
      ModSmall(v + m, m);
    } else {
      ModSmall(v, m);
    }
  }

  // ----- division and remainder -----

  lemma TDivRem(x: int, y: int)
    requires y != 0
    ensures TDiv(x, y) * y + TRem(x, y) == x
    ensures Abs(TRem(x, y)) < Abs(y)
  {
    var q, r := Abs(x) / Abs(y), Abs(x) % Abs(y);
    assert Abs(x) == q * Abs(y) + r;
    assert (-q) * (-y) == q * y;
    assert (-q) * y == -(q * y) == q * (-y);
  }
}
