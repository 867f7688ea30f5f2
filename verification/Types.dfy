/** The C++ types a generated program may use, and their values. */
module Types {
  import opened Bits

  datatype Option<+T> = None | Some(value: T)

  type Pos = n: nat | n >= 1 witness 1

  /** `TInt(4, true)` is int32_t; `TByte` is std::byte. */
  datatype Ty = TVoid | TBool | TByte | TInt(bytes: Pos, signed: bool) | TPtr(elem: Ty)

  /** Width of the LLVM type: bool is i1. */
  function Width(t: Ty): (w: nat)
    ensures !t.TVoid? ==> w >= 1
  {
    match t
    case TVoid => 0
    case TBool => 1
    case TByte => 8
    case TInt(n, _) => 8 * n
    case TPtr(_) => 64
  }

  /** sizeof, in bytes: a bool occupies a whole byte in memory. */
  function Size(t: Ty): nat {
    match t
    case TVoid => 0
    case TBool => 1
    case TByte => 1
    case TInt(n, _) => n
    case TPtr(_) => 8
  }

  /** std::is_integral: std::byte is an enumeration, not an integer. */
  predicate IsIntegral(t: Ty) { t.TBool? || t.TInt? }

  /** std::is_signed */
  predicate IsSigned(t: Ty) { t.TInt? && t.signed }

  predicate InRange(t: Ty, v: int) {
    if t.TVoid? then false
    else if IsSigned(t) then -Pow2(Width(t) - 1) <= v < Pow2(Width(t) - 1)
    else 0 <= v < Pow2(Width(t))
  }

  function PatOf(t: Ty, v: int): nat { Pat(Width(t), v) }

  function ValOf(t: Ty, p: nat): int { if IsSigned(t) then Signed(Width(t), p) else p }

  /** The value of type t congruent to z: what wrap-around arithmetic leaves. */
  function Norm(t: Ty, z: int): int { ValOf(t, PatOf(t, z)) }

  lemma ValInRange(t: Ty, p: nat)
    requires !t.TVoid? && p < Pow2(Width(t))
    ensures InRange(t, ValOf(t, p)) && PatOf(t, ValOf(t, p)) == p
  {
    if IsSigned(t) {
      SignedOfPat(Width(t), p);
    } else {
      ModSmall(p, Pow2(Width(t)));
    }
  }

  lemma PatVal(t: Ty, v: int)
    requires InRange(t, v)
    ensures ValOf(t, PatOf(t, v)) == v
  {
    if IsSigned(t) {
      PatOfSigned(Width(t), v);
    } else {
      ModSmall(v, Pow2(Width(t)));
    }
  }

  lemma NormProps(t: Ty, z: int)
    requires !t.TVoid?
    ensures InRange(t, Norm(t, z)) && PatOf(t, Norm(t, z)) == PatOf(t, z)
  {
    ValInRange(t, PatOf(t, z));
  }

  /** Equal values are exactly equal patterns. */
  lemma PatInjective(t: Ty, x: int, y: int)
    requires InRange(t, x) && InRange(t, y)
    ensures PatOf(t, x) == PatOf(t, y) <==> x == y
  {
    PatVal(t, x);
    PatVal(t, y);
  }
}
