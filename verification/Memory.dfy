/** Byte-addressed memory with little-endian scalar access. */
module Memory {
  import opened Bits
  import opened Types

  type Byte = b: nat | b < 256
  type Mem = map<nat, Byte>

  /** The n bytes at a, least significant first. */
  function ReadLE(m: Mem, a: nat, n: nat): Option<nat>
    decreases n
  {
    if n == 0 then Some(0)
    else if a !in m then None
    else match ReadLE(m, a + 1, n - 1)
      case None => None
      case Some(r) => Some(m[a] + 256 * r)
  }

  function WriteLE(m: Mem, a: nat, n: nat, v: nat): Mem
    decreases n
  {
    if n == 0 then m
    else WriteLE(m[a := v % 256], a + 1, n - 1, v / 256)
  }

  /** Every byte of the n-byte range at a is allocated. */
  predicate Mapped(m: Mem, a: nat, n: nat) {
    forall i :: a <= i < a + n ==> i in m
  }

  /** A load of type t fails on unallocated memory and on a bool byte other than 0 and 1. */
  function LoadTy(m: Mem, a: nat, t: Ty): Option<nat> {
    match ReadLE(m, a, Size(t))
    case None => None
    case Some(p) => if p < Pow2(Width(t)) then Some(p) else None
  }

  function StoreTy(m: Mem, a: nat, t: Ty, p: nat): Option<Mem> {
    if Mapped(m, a, Size(t)) then Some(WriteLE(m, a, Size(t), p)) else None
  }

  /** An int negative when byte x is the smaller, positive when y is. */
  predicate Ranks(r: int, x: int, y: int) {
    -Pow2(31) <= r < Pow2(31) && (if x < y then r < 0 else r > 0)
  }

  /** The library's own choice of such a number, where bytes x and y, at p and q, differ and n are left. */
  ghost function Ranking(x: int, y: int, p: nat, q: nat, n: nat): (r: int)
    ensures Ranks(r, x, y)
  {
    assert Pow2(31) >= 2;
    assert Ranks(if x < y then -1 else 1, x, y);
    var r :| Ranks(r, x, y);
    r
  }

  /** What memcmp returns: 0 if the n bytes are the same, else a number with the sign of the first difference. */
  ghost function CompareBytes(m: Mem, p: nat, q: nat, n: nat): Option<int>
    decreases n
  {
    if n == 0 then Some(0)
    else if p !in m || q !in m then None
    else if m[p] != m[q] then Some(Ranking(m[p], m[q], p, q, n))
    else CompareBytes(m, p + 1, q + 1, n - 1)
  }

  predicate Agree(m: Mem, m': Mem, a: nat, n: nat) {
    forall i :: a <= i < a + n ==> (i in m <==> i in m') && (i in m ==> m[i] == m'[i])
  }

  lemma {:induction false} WriteDomain(m: Mem, a: nat, n: nat, v: nat)
    requires Mapped(m, a, n)
    ensures WriteLE(m, a, n, v).Keys == m.Keys
    ensures forall i :: i in m && !(a <= i < a + n) ==> WriteLE(m, a, n, v)[i] == m[i]
    decreases n
  {
    if n > 0 {
      var m1 := m[a := v % 256];
      assert m1.Keys == m.Keys;
      WriteDomain(m1, a + 1, n - 1, v / 256);
    }
  }

  /** Writing where nothing is allocated allocates: the domain grows by exactly the range. */
  lemma {:induction false} WriteGrows(m: Mem, a: nat, n: nat, v: nat)
    ensures forall i :: i in WriteLE(m, a, n, v) <==> i in m || a <= i < a + n
    ensures forall i :: i in m && !(a <= i < a + n) ==> WriteLE(m, a, n, v)[i] == m[i]
    decreases n
  {
    if n > 0 {
      WriteGrows(m[a := v % 256], a + 1, n - 1, v / 256);
    }
  }

  lemma {:induction false} ReadAgree(m: Mem, m': Mem, a: nat, n: nat)
    requires Agree(m, m', a, n)
    ensures ReadLE(m, a, n) == ReadLE(m', a, n)
    decreases n
  {
    if n > 0 {
      ReadAgree(m, m', a + 1, n - 1);
    }
  }

  lemma {:induction false} ReadMapped(m: Mem, a: nat, n: nat)
    ensures ReadLE(m, a, n).Some? <==> Mapped(m, a, n)
    decreases n
  {
    if n > 0 {
      ReadMapped(m, a + 1, n - 1);
      if Mapped(m, a, n) {
        assert a in m;
      }
      if a in m && Mapped(m, a + 1, n - 1) {
        assert Mapped(m, a, n);
      }
    }
  }

  /** Reading back what was written. */
  lemma {:induction false} ReadWrite(m: Mem, a: nat, n: nat, v: nat)
    requires Mapped(m, a, n) && v < Pow2(8 * n)
    ensures ReadLE(WriteLE(m, a, n, v), a, n) == Some(v)
    decreases n
  {
    if n > 0 {
      var m1 := m[a := v % 256];
      Pow2Add(8, 8 * (n - 1));
      assert Pow2(8) == 256;
      assert v / 256 < Pow2(8 * (n - 1));
      assert Mapped(m1, a + 1, n - 1);
      ReadWrite(m1, a + 1, n - 1, v / 256);
      WriteDomain(m1, a + 1, n - 1, v / 256);
    }
  }

  lemma WidthFits(t: Ty)
    ensures Pow2(Width(t)) <= Pow2(8 * Size(t))
  {
    Pow2Mono(Width(t), 8 * Size(t));
  }

  /** A typed load after a typed store of the same type returns the pattern stored. */
  lemma LoadStore(m: Mem, a: nat, t: Ty, p: nat)
    requires Mapped(m, a, Size(t)) && p < Pow2(Width(t))
    ensures LoadTy(WriteLE(m, a, Size(t), p), a, t) == Some(p)
  {
    WidthFits(t);
    ReadWrite(m, a, Size(t), p);
  }

  lemma {:induction false} CompareAgree(m: Mem, m': Mem, p: nat, q: nat, n: nat)
    requires forall i :: i in m ==> i in m' && m'[i] == m[i]
    requires CompareBytes(m, p, q, n).Some?
    ensures CompareBytes(m', p, q, n) == CompareBytes(m, p, q, n)
    decreases n
  {
    if n > 0 && m[p] == m[q] {
      CompareAgree(m, m', p + 1, q + 1, n - 1);
    }
  }

  /** Memory that extends m reads the same wherever m can be read. */
  lemma {:induction false} ReadExtends(m: Mem, m': Mem, a: nat, n: nat)
    requires forall i :: i in m ==> i in m' && m'[i] == m[i]
    requires ReadLE(m, a, n).Some?
    ensures ReadLE(m', a, n) == ReadLE(m, a, n)
    decreases n
  {
    if n > 0 {
      ReadExtends(m, m', a + 1, n - 1);
    }
  }
}
