/** What the scalar operations mean, said apart from how they are computed: the values a type has and the
    bytes it takes, the bits of a bitwise result, the congruence an arithmetic result satisfies, the
    bytes of a stored value. */
module Operators {
  import opened Bits
  import opened Types
  import opened Memory
  import opened Source
  import Expressions

  // ----- bits -----

  predicate BitOf(a: nat, i: nat) { (a / Pow2(i)) % 2 == 1 }

  lemma NextBit(a: nat, i: nat)
    ensures BitOf(a, i + 1) <==> BitOf(a / 2, i)
  {
    var m, q := Pow2(i), (a / 2) / Pow2(i);
    var r := (a / 2) % m;
    assert a / 2 == q * m + r;
    assert a == q * (2 * m) + (2 * r + a % 2) by {
      assert a == 2 * (a / 2) + a % 2;
    }
    QuotientUnique(a, q, 2 * r + a % 2, 2 * m);
  }

  lemma FirstBit(a: nat)
    ensures BitOf(a, 0) <==> a % 2 == 1
  {}

  lemma {:induction false} BitwiseAt(f: (nat, nat) -> bool, w: nat, a: nat, b: nat, i: nat)
    requires i < w
    ensures BitOf(Bitwise(f, w, a, b), i) <==>
            f(if BitOf(a, i) then 1 else 0, if BitOf(b, i) then 1 else 0)
    decreases w
  {
    hide BitOf;
    var r, rest := Bitwise(f, w, a, b), Bitwise(f, w - 1, a / 2, b / 2);
    assert r / 2 == rest && r % 2 == (if f(a % 2, b % 2) then 1 else 0);
    if i == 0 {
      FirstBit(r);
      FirstBit(a);
      FirstBit(b);
    } else {
      NextBit(r, i - 1);
      NextBit(a, i - 1);
      NextBit(b, i - 1);
      BitwiseAt(f, w - 1, a / 2, b / 2, i - 1);
    }
  }

  /** Each bit of a result is the and, the or, the difference of the operands' bits there. */
  lemma BitsOfResult(w: nat, a: nat, b: nat, i: nat)
    requires i < w
    ensures BitOf(BitAnd(w, a, b), i) <==> BitOf(a, i) && BitOf(b, i)
    ensures BitOf(BitOr(w, a, b), i) <==> BitOf(a, i) || BitOf(b, i)
    ensures BitOf(BitXor(w, a, b), i) <==> BitOf(a, i) != BitOf(b, i)
  {
    hide BitOf;
    BitwiseAt((x, y) => x == 1 && y == 1, w, a, b, i);
    BitwiseAt((x, y) => x == 1 || y == 1, w, a, b, i);
    BitwiseAt((x, y) => x != y, w, a, b, i);
  }

  /** A pattern is known once its bits are. */
  lemma {:induction false} BitsDetermine(w: nat, a: nat, b: nat)
    requires a < Pow2(w) && b < Pow2(w) && forall i: nat :: i < w ==> (BitOf(a, i) <==> BitOf(b, i))
    ensures a == b
    decreases w
  {
    hide BitOf;
    if w > 0 {
      forall i: nat | i < w - 1
        ensures BitOf(a / 2, i) <==> BitOf(b / 2, i)
      {
        NextBit(a, i);
        NextBit(b, i);
      }
      BitsDetermine(w - 1, a / 2, b / 2);
      FirstBit(a);
      FirstBit(b);
    }
  }

  // ----- types -----

  /** The values of each type: what C++ says of the integers, a 64-bit address for a pointer. */
  lemma ValuesOf(t: Ty, v: int)
    ensures InRange(t, v) <==>
            match t
            case TVoid => false
            case TBool => v == 0 || v == 1
            case TByte => 0 <= v < 256
            case TInt(n, true) => -Pow2(8 * n - 1) <= v < Pow2(8 * n - 1)
            case TInt(n, false) => 0 <= v < Pow2(8 * n)
            case TPtr(_) => 0 <= v < 0x1_0000_0000_0000_0000
  {
    hide Pow2;
    SmallPowers();
  }

  lemma SmallPowers()
    ensures Pow2(1) == 2 && Pow2(8) == 256 && Pow2(64) == 0x1_0000_0000_0000_0000
  {
    assert Pow2(1) == 2 && Pow2(8) == 256;
    Pow2Add(8, 8);
    Pow2Add(16, 16);
    Pow2Add(32, 32);
  }

  /** A value takes the fewest bytes that hold it. */
  lemma SizeCovers(t: Ty)
    requires !t.TVoid?
    ensures Width(t) <= 8 * Size(t) < Width(t) + 8
  {}

  // ----- arithmetic -----

  predicate Congruent(t: Ty, x: int, y: int) { (x - y) % Pow2(Width(t)) == 0 }

  lemma NormCongruent(t: Ty, z: int)
    requires !t.TVoid?
    ensures InRange(t, Norm(t, z)) && Congruent(t, Norm(t, z), z)
  {
    hide Norm, Pow2, InRange;
    NormProps(t, z);
    SameResidue(Norm(t, z), z, Pow2(Width(t)));
  }

  lemma SameResidue(x: int, y: int, m: int)
    requires m > 0 && x % m == y % m
    ensures (x - y) % m == 0
  {
    assert x == (x / m) * m + x % m && y == (y / m) * m + y % m;
    assert x - y == 0 + (x / m - y / m) * m;
    ModEq(x - y, 0, x / m - y / m, m);
  }

  /** The quotient of x by y, rounded toward zero. */
  predicate IsQuotient(x: int, y: int, q: int) {
    Abs(q) * Abs(y) <= Abs(x) < (Abs(q) + 1) * Abs(y) && (q > 0 ==> (x < 0) == (y < 0)) &&
    (q < 0 ==> (x < 0) != (y < 0))
  }

  /** What is left of x after that division. */
  predicate IsRemainder(x: int, y: int, r: int) {
    y != 0 && (x - r) % y == 0 && Abs(r) < Abs(y) && (r > 0 ==> x > 0) && (r < 0 ==> x < 0)
  }

  lemma QuotientIs(x: int, y: int)
    requires y != 0
    ensures IsQuotient(x, y, TDiv(x, y))
  {
    hide IsQuotient, TDiv;
    var q := TDivSize(x, y);
    QuotientSign(x, y, q);
  }

  lemma TDivSize(x: int, y: int) returns (q: nat)
    requires y != 0
    ensures q * Abs(y) <= Abs(x) < (q + 1) * Abs(y) && TDiv(x, y) == if (x < 0) == (y < 0) then q else 0 - q
  {
    q := Abs(x) / Abs(y);
    Divided(Abs(x), Abs(y));
  }

  lemma QuotientSign(x: int, y: int, q: nat)
    requires q * Abs(y) <= Abs(x) < (q + 1) * Abs(y)
    ensures IsQuotient(x, y, if (x < 0) == (y < 0) then q else 0 - q)
  {
    assert Abs(q) == q && Abs(0 - q) == q;
  }

  lemma Divided(a: nat, b: nat)
    requires b > 0
    ensures (a / b) * b <= a < (a / b + 1) * b
  {
    assert a == (a / b) * b + a % b;
    assert (a / b + 1) * b == (a / b) * b + b;
  }

  lemma RemainderIs(x: int, y: int)
    requires y != 0
    ensures IsRemainder(x, y, TRem(x, y))
  {
    RemainderSign(x, y);
    TDivRem(x, y);
    RemainderOf(x, y, TDiv(x, y), TRem(x, y));
  }

  lemma RemainderSign(x: int, y: int)
    requires y != 0
    ensures Abs(TRem(x, y)) < Abs(y) && (TRem(x, y) > 0 ==> x > 0) && (TRem(x, y) < 0 ==> x < 0)
  {
    Small(Abs(x), Abs(y));
  }

  lemma Small(a: nat, b: nat)
    requires b > 0
    ensures 0 <= a % b < b && (a == 0 ==> a % b == 0)
  {}

  lemma RemainderOf(x: int, y: int, q: int, r: int)
    requires y != 0 && q * y + r == x && Abs(r) < Abs(y) && (r > 0 ==> x > 0) && (r < 0 ==> x < 0)
    ensures IsRemainder(x, y, r)
  {
    Multiple(q, y);
  }

  lemma Multiple(k: int, y: int)
    requires y != 0
    ensures (k * y) % y == 0
  {
    if y > 0 {
      ModEq(k * y, 0, k, y);
    } else {
      assert (-k) * (-y) == k * y;
      ModEq(k * y, 0, -k, -y);
      assert (k * y) % y == (k * y) % (-y);
    }
  }

  /** What an operator's result is: the sum, difference or product up to a multiple of the modulus, the
      quotient rounded toward zero, the remainder, the bits combined one by one; always a value of the
      operands' type. Undefined are only division by zero and the signed quotient that does not fit. */
  lemma ArithmeticMeans(op: ArithOp, t: Ty, x: int, y: int, i: nat)
    requires IsIntegral(t) && InRange(t, x) && InRange(t, y) && i < Width(t)
    ensures Arithmetic(op, t, x, y).None? <==>
            (op.DivOp? || op.ModOp?) && (y == 0 || (IsSigned(t) && x == -Pow2(Width(t) - 1) && y == -1))
    ensures Arithmetic(op, t, x, y).Some? ==>
              var r := Arithmetic(op, t, x, y).value;
              InRange(t, r) &&
              match op
              case PlusOp => Congruent(t, r, x + y)
              case MinusOp => Congruent(t, r, x - y)
              case TimesOp => Congruent(t, r, x * y)
              case DivOp => IsQuotient(x, y, r)
              case ModOp => IsRemainder(x, y, r)
              case AndOp => BitOf(PatOf(t, r), i) <==> BitOf(PatOf(t, x), i) && BitOf(PatOf(t, y), i)
              case OrOp => BitOf(PatOf(t, r), i) <==> BitOf(PatOf(t, x), i) || BitOf(PatOf(t, y), i)
              case XorOp => BitOf(PatOf(t, r), i) <==> BitOf(PatOf(t, x), i) != BitOf(PatOf(t, y), i)
  {
    hide Bitwise, BitOf, Norm, PatOf, InRange, TDiv, TRem, Congruent, IsQuotient, IsRemainder;
    var w, a, b := Width(t), PatOf(t, x), PatOf(t, y);
    BitsOfResult(w, a, b, i);
    match op
    case PlusOp => NormCongruent(t, x + y);
    case MinusOp => NormCongruent(t, x - y);
    case TimesOp => NormCongruent(t, x * y);
    case AndOp => Expressions.NormPattern(t, BitAnd(w, a, b));
    case OrOp => Expressions.NormPattern(t, BitOr(w, a, b));
    case XorOp => Expressions.NormPattern(t, BitXor(w, a, b));
    case _ =>
      if y != 0 {
        Expressions.QuotientFits(t, x, y);
        Expressions.RemainderFits(t, x, y);
        QuotientIs(x, y);
        RemainderIs(x, y);
      }
  }

  /** A pointer step moves by whole elements, as far as 64 bits go. */
  lemma AdvanceMeans(minus: bool, p: int, i: int, t: Ty)
    ensures var q := Advance(minus, p, i, Size(t));
            InRange(TPtr(t), q) && Congruent(TPtr(t), q, if minus then p - i * Size(t) else p + i * Size(t))
  {
    hide Pow2, Scaled, Size;
    var n, j := Size(t), if minus then -i else i;
    ScaledIsProduct(j, n);
    Negated(i, n);
    WrapsTo(p + j * n, Pow2(64));
  }

  lemma Negated(i: int, n: int)
    ensures (-i) * n == -(i * n)
  {}

  lemma WrapsTo(z: int, m: int)
    requires m > 0
    ensures 0 <= z % m < m && (z % m - z) % m == 0
  {
    ModMod(z, m, 1);
    SameResidue(z % m, z, m);
  }

  // ----- memory -----

  /** A stored value lies in memory low byte first, each byte eight bits of it. */
  lemma {:induction false} ByteOrder(m: Mem, a: nat, n: nat, v: nat, i: nat)
    requires i < n
    ensures a + i in WriteLE(m, a, n, v) && WriteLE(m, a, n, v)[a + i] == (v / Pow2(8 * i)) % 256
    decreases n
  {
    var m1 := m[a := v % 256];
    WriteGrows(m1, a + 1, n - 1, v / 256);
    if i > 0 {
      ByteOrder(m1, a + 1, n - 1, v / 256, i - 1);
      NextByte(v, i - 1);
    }
  }

  lemma NextByte(v: nat, i: nat)
    ensures (v / 256) / Pow2(8 * i) == v / Pow2(8 * (i + 1))
  {
    var m := Pow2(8 * i);
    assert Pow2(8) == 256;
    Pow2Add(8, 8 * i);
    var q, r := (v / 256) / m, (v / 256) % m;
    assert v / 256 == q * m + r && v == 256 * (v / 256) + v % 256;
    assert v == q * (256 * m) + (256 * r + v % 256);
    QuotientUnique(v, q, 256 * r + v % 256, 256 * m);
  }
}
