/** Exactly where the array loop is element-wise: for every other layout of the arrays some memory and some
    factor make an element read what the loop itself has written. */
module Overlap {
  import opened Bits
  import opened Types
  import opened Memory
  import opened Comparator
  import opened StringComparator
  import opened SoaCompute

  /** Arrays of n elements inside the address space. */
  predicate InSpace(b: nat, c: nat, d: nat, n: nat) {
    n < Pow2(64) && b < Pow2(64) && c < Pow2(64) && d < Pow2(64) && b + 4 * n <= Pow2(64) && c + 4 * n <= Pow2(64) &&
    d + 4 * n <= Pow2(64)
  }

  /** Each element of the result is made from the operands as they were before the loop. */
  predicate IsElementwise(m: Mem, j: Job)
    requires JobOk(m, j)
  {
    forall k :: 0 <= k < j.n ==> At(From(m, j, 0), j.d, j.n, k) == Entry(m, j, k)
  }

  ghost predicate AlwaysElementwise(b: nat, c: nat, d: nat, n: nat) {
    forall a: int, m: Mem :: JobOk(m, Job(a, b, c, d, n)) ==> IsElementwise(m, Job(a, b, c, d, n))
  }

  // ----- what an element is really made of -----

  /** Memory after the first k iterations. */
  function Until(m: Mem, j: Job, k: nat): (r: Mem)
    requires JobOk(m, j) && k <= j.n
    ensures r.Keys == m.Keys && JobOk(r, j)
  {
    if k == 0 then m else AfterIteration(Until(m, j, k - 1), j, k - 1)
  }

  lemma {:induction false} FromUntil(m: Mem, j: Job, k: nat)
    requires JobOk(m, j) && k <= j.n
    ensures From(m, j, 0) == From(Until(m, j, k), j, k)
    decreases k
  {
    hide AfterIteration, JobOk;
    if k > 0 {
      FromUntil(m, j, k - 1);
    }
  }

  /** Iterations from i on write nothing below element i. */
  lemma {:induction false} FromKeeps(m: Mem, j: Job, i: nat, x: nat)
    requires JobOk(m, j) && i <= j.n && x in m && x < j.d + 4 * i
    ensures From(m, j, i)[x] == m[x]
    decreases j.n - i
  {
    hide AfterIteration;
    if i < j.n {
      AfterIterationAt(m, j, i);
      FromKeeps(AfterIteration(m, j, i), j, i + 1, x);
    }
  }

  /** Element k is made from the memory its own iteration finds, whatever the layout. */
  lemma LateEntry(m: Mem, j: Job, k: nat)
    requires JobOk(m, j) && k < j.n
    ensures At(From(m, j, 0), j.d, j.n, k) == Entry(Until(m, j, k), j, k)
  {
    hide AfterIteration, Entry, At, InRange;
    var m1 := Until(m, j, k);
    var m2 := AfterIteration(m1, j, k);
    FromUntil(m, j, k);
    AfterIterationAt(m1, j, k);
    forall x | j.d + 4 * k <= x < j.d + 4 * k + 4
      ensures x in m2 && From(m2, j, k + 1)[x] == m2[x]
    {
      FromKeeps(m2, j, k + 1, x);
    }
    SameAt(m2, From(m2, j, k + 1), j.d, j.n, k);
  }

  // ----- bytes -----

  function ByteOf(m: Mem, a: nat): nat { if a in m then m[a] else 0 }

  function Part(both: bool, x: nat): nat { if both then x else 0 }

  /** Byte i of the operands at p and q together, or of the one at q alone. */
  function ByteSum(both: bool, m: Mem, p: nat, q: nat, i: nat): nat { Part(both, ByteOf(m, p + i)) + ByteOf(m, q + i) }

  lemma ReadStep(m: Mem, a: nat, n: nat)
    requires n > 0 && Mapped(m, a, n)
    ensures ReadLE(m, a, n).Some? && Mapped(m, a + 1, n - 1) && ReadLE(m, a + 1, n - 1).Some?
    ensures ReadLE(m, a, n).value == ByteOf(m, a) + 256 * ReadLE(m, a + 1, n - 1).value && ByteOf(m, a) < 256
  {
    ReadMapped(m, a, n);
    ReadMapped(m, a + 1, n - 1);
  }

  /** The sum of two little-endian numbers, where no byte carries, has the sums of their bytes. */
  lemma {:induction false} SumBytes(both: bool, m0: Mem, p: nat, q: nat, m: Mem, a: nat, n: nat, r: nat)
    requires Mapped(m0, p, n) && Mapped(m0, q, n) && Mapped(m, a, n) && r < n
    requires forall i :: 0 <= i < n ==> ByteSum(both, m0, p, q, i) < 256
    ensures ReadLE(m0, p, n).Some? && ReadLE(m0, q, n).Some?
    ensures var v := Part(both, ReadLE(m0, p, n).value) + ReadLE(m0, q, n).value;
            ByteOf(WriteLE(m, a, n, v), a + r) == ByteSum(both, m0, p, q, r)
    decreases n
  {
    hide ReadLE, ByteOf, WriteLE, Mapped;
    ReadStep(m0, p, n);
    ReadStep(m0, q, n);
    assert ByteSum(both, m0, p, q, 0) < 256;
    var v := Part(both, ReadLE(m0, p, n).value) + ReadLE(m0, q, n).value;
    var v1 := Part(both, ReadLE(m0, p + 1, n - 1).value) + ReadLE(m0, q + 1, n - 1).value;
    assert v == ByteSum(both, m0, p, q, 0) + 256 * v1;
    var p1, q1 := p + 1, q + 1;
    WriteStep(m, a, n, v);
    if r > 0 {
      forall i | 0 <= i < n - 1
        ensures ByteSum(both, m0, p1, q1, i) < 256
      {
        assert ByteSum(both, m0, p, q, i + 1) < 256;
      }
      SumBytes(both, m0, p1, q1, m[a := v % 256], a + 1, n - 1, r - 1);
    }
  }

  lemma WriteStep(m: Mem, a: nat, n: nat, v: nat)
    requires n > 0 && Mapped(m, a, n)
    ensures Mapped(m[a := v % 256], a + 1, n - 1) &&
            WriteLE(m, a, n, v) == WriteLE(m[a := v % 256], a + 1, n - 1, v / 256)
    ensures ByteOf(WriteLE(m, a, n, v), a) == v % 256
  {
    WriteDomain(m[a := v % 256], a + 1, n - 1, v / 256);
  }

  /** A different byte makes a different number. */
  lemma {:induction false} ReadDiffers(m: Mem, m': Mem, a: nat, n: nat, r: nat)
    requires Mapped(m, a, n) && Mapped(m', a, n) && r < n && ByteOf(m, a + r) != ByteOf(m', a + r)
    ensures ReadLE(m, a, n) != ReadLE(m', a, n)
    decreases n
  {
    hide ReadLE, ByteOf, Mapped;
    ReadStep(m, a, n);
    ReadStep(m', a, n);
    if r > 0 {
      ReadDiffers(m, m', a + 1, n - 1, r - 1);
    }
  }

  lemma ElementDiffers(m: Mem, m': Mem, p: nat, n: nat, k: nat, r: nat)
    requires ArrayAt(m, p, n) && ArrayAt(m', p, n) && k < n && r < 4
    requires ByteOf(m, p + 4 * k + r) != ByteOf(m', p + 4 * k + r)
    ensures At(m, p, n, k) != At(m', p, n, k)
  {
    hide ReadLE, ByteOf;
    var a := p + 4 * k;
    ReadDiffers(m, m', a, 4, r);
    IntFieldOk(m, a, I32);
    IntFieldOk(m', a, I32);
    ValInRange(I32, LoadTy(m, a, I32).value);
    ValInRange(I32, LoadTy(m', a, I32).value);
  }

  lemma AtInRange(m: Mem, p: nat, n: nat, k: nat)
    requires ArrayAt(m, p, n) && k < n
    ensures InRange(I32, At(m, p, n, k))
  {
    hide ReadLE, InRange, ValOf;
    IntFieldOk(m, p + 4 * k, I32);
    FieldLoads(m, p + 4 * k, I32);
  }

  // ----- a memory of zeros and one -----

  /** Every byte of the address space is zero but the one at x. */
  function OneAt(x: nat): Mem { map i: nat | i < Pow2(64) && IsAddress(i) :: if i == x then 1 else 0 }

  predicate IsAddress(i: nat) { i < Pow2(64) }

  lemma OneAtOk(b: nat, c: nat, d: nat, n: nat, x: nat, a: int)
    requires InSpace(b, c, d, n) && (a == 0 || a == 1)
    ensures JobOk(OneAt(x), Job(a, b, c, d, n)) && forall i: nat :: i < Pow2(64) ==>
            ByteOf(OneAt(x), i) == if i == x then 1 else 0
  {
    SmallFactors();
    hide Pow2, InRange;
  }

  lemma SmallFactors()
    ensures InRange(I32, 0) && InRange(I32, 1)
  {
    WordSize();
  }

  /** A word of such bytes is small, and is its own value. */
  lemma SmallWord(m: Mem, a: nat)
    requires Mapped(m, a, 4) && forall i :: a <= i < a + 4 ==> ByteOf(m, i) <= 1
    ensures ReadLE(m, a, 4).Some? && ReadLE(m, a, 4).value <= 16843009 && FieldAt(m, a, I32) == ReadLE(m, a, 4).value
  {
    ReadMapped(m, a, 4);
    assert ByteOf(m, a) <= 1 && ByteOf(m, a + 1) <= 1 && ByteOf(m, a + 2) <= 1 && ByteOf(m, a + 3) <= 1;
    WordOf(m, a);
    WordSize();
  }

  lemma WordOf(m: Mem, a: nat)
    requires Mapped(m, a, 4)
    ensures ReadLE(m, a, 4) ==
            Some(ByteOf(m, a) + 256 * (ByteOf(m, a + 1) + 256 * (ByteOf(m, a + 2) + 256 * ByteOf(m, a + 3))))
  {
    assert ReadLE(m, a + 4, 0) == Some(0);
    assert ReadLE(m, a + 3, 1) == Some(ByteOf(m, a + 3));
    assert ReadLE(m, a + 2, 2) == Some(ByteOf(m, a + 2) + 256 * ByteOf(m, a + 3));
    assert ReadLE(m, a + 1, 3) == Some(ByteOf(m, a + 1) + 256 * (ByteOf(m, a + 2) + 256 * ByteOf(m, a + 3)));
  }

  lemma WordSize()
    ensures Pow2(31) == 2147483648 && Pow2(32) == 4294967296
  {
    assert Pow2(8) == 256;
    Pow2Add(8, 8);
    Pow2Add(16, 8);
    Pow2Add(24, 7);
    assert Pow2(7) == 128;
    Pow2Add(31, 1);
  }

  // ----- an operand overrun -----

  /** The first byte of p that the loop overwrites with an earlier one before reading it. */
  function Hit(s: nat): nat { if s < 4 then 4 else s }

  /** The first iteration, on such a memory, adds its operands byte by byte. */
  lemma FirstIteration(m: Mem, j: Job, x: nat, r: nat)
    requires JobOk(m, j) && j.n > 0 && (j.a == 0 || j.a == 1) && r < 4
    requires forall i: nat :: i < Pow2(64) ==> ByteOf(m, i) == if i == x then 1 else 0
    ensures ByteOf(AfterIteration(m, j, 0), j.d + r) == ByteSum(j.a == 1, m, j.b, j.c, r)
  {
    hide ByteOf, ReadLE, WriteLE, Pow2, InRange;
    var both := j.a == 1;
    SmallWord(m, j.b);
    SmallWord(m, j.c);
    WordSize();
    var v := Part(both, ReadLE(m, j.b, 4).value) + ReadLE(m, j.c, 4).value;
    SmallEntry(v);
    SumBytes(both, m, j.b, j.c, m, j.d, 4, r);
  }

  lemma SmallEntry(v: nat)
    requires v <= 33686018
    ensures Norm(I32, v) == v && PatOf(I32, v) == v
  {
    hide Pow2;
    WordSize();
    PatVal(I32, v);
    ModSmall(v, Pow2(32));
  }

  /** What the first iteration wrote is still there when the iteration that reads it begins. */
  lemma {:induction false} HitStays(m: Mem, j: Job, k: nat, x: nat)
    requires JobOk(m, j) && 1 <= k <= j.n && x in m && j.d <= x < j.d + 4
    ensures Until(m, j, k)[x] == AfterIteration(m, j, 0)[x]
    decreases k
  {
    hide AfterIteration;
    if k > 1 {
      HitStays(m, j, k - 1, x);
      AfterIterationAt(Until(m, j, k - 1), j, k - 1);
    }
  }

  /** Operands that are not overrun are read as they were. */
  lemma {:induction false} BehindStays(m: Mem, j: Job, k: nat, i: nat)
    requires JobOk(m, j) && i <= k < j.n && Behind(j.d, j.c, j.n)
    ensures At(Until(m, j, i), j.c, j.n, k) == At(m, j.c, j.n, k)
    decreases i
  {
    hide AfterIteration, At, Behind;
    if i > 0 {
      BehindStays(m, j, k, i - 1);
      Unread(Until(m, j, i - 1), j, i - 1, j.c, k);
    }
  }

  /** Adding the same element to different ones. */
  lemma SumsDiffer(x: int, x': int, y: int)
    requires InRange(I32, x) && InRange(I32, x') && x != x'
    ensures Norm(I32, 1 * x + y) != Norm(I32, 1 * x' + y)
  {
    hide InRange;
    var m := Pow2(32);
    NormProps(I32, x + y);
    NormProps(I32, x' + y);
    PatInjective(I32, x, x');
    ModSub(x + y, y, m);
    ModSub(x' + y, y, m);
  }

  /** The iteration that reads the overwritten byte does not find the byte that was there. */
  lemma HitDiffers(m: Mem, j: Job, p: nat)
    requires JobOk(m, j) && ArrayAt(m, p, j.n) && p < j.d < p + 4 * j.n && (j.a == 0 || j.a == 1)
    requires p == if j.a == 1 then j.b else j.c
    requires var x := p + Hit(j.d - p) - (j.d - p);
             forall i: nat :: i < Pow2(64) ==> ByteOf(m, i) == if i == x then 1 else 0
    requires j.n >= 2
    ensures var k := Hit(j.d - p) / 4;
            1 <= k < j.n && ArrayAt(Until(m, j, k), p, j.n) && At(Until(m, j, k), p, j.n, k) != At(m, p, j.n, k)
  {
    hide AfterIteration, At, Pow2, InRange;
    var o := Hit(j.d - p);
    var r, k := o - (j.d - p), o / 4;
    assert p + o in m && p + r in m;
    FirstIteration(m, j, p + r, r);
    assert ByteOf(m, p + r) == 1 && ByteOf(m, p + o) == 0;
    HitStays(m, j, k, p + o);
    assert ByteOf(Until(m, j, k), p + o) >= 1;
    assert p + o == p + 4 * k + o % 4;
    ElementDiffers(Until(m, j, k), m, p, j.n, k, o % 4);
  }

  /** For every layout in which d begins inside the operand p, some memory makes the loop differ. */
  lemma OverrunFails(b: nat, c: nat, d: nat, n: nat, both: bool) returns (m: Mem, k: nat)
    requires InSpace(b, c, d, n) && n >= 2 && var p := if both then b else c; p < d < p + 4 * n
    requires both ==> Behind(d, c, n)
    ensures var j := Job(if both then 1 else 0, b, c, d, n);
            JobOk(m, j) && k < n && At(From(m, j, 0), d, n, k) != Entry(m, j, k)
    ensures var s := d - if both then b else c; m == OneAt(d - s + Hit(s) - s) && k == Hit(s) / 4
  {
    hide AfterIteration, At, Behind, InSpace, Norm, Pow2, ByteOf, InRange, ArrayAt, OneAt;
    var j, p := Job(if both then 1 else 0, b, c, d, n), if both then b else c;
    k := Hit(d - p) / 4;
    var x := p + Hit(d - p) - (d - p);
    m := OneAt(x);
    OneAtOk(b, c, d, n, x, j.a);
    HitDiffers(m, j, p);
    LateEntry(m, j, k);
    var m' := Until(m, j, k);
    AtInRange(m, p, n, k);
    AtInRange(m', p, n, k);
    if both {
      BehindStays(m, j, k, k);
      SumsDiffer(At(m', b, n, k), At(m, b, n, k), At(m, c, n, k));
    } else {
      SameValue(At(m', c, n, k));
      SameValue(At(m, c, n, k));
    }
  }

  lemma SameValue(x: int)
    requires InRange(I32, x)
    ensures Norm(I32, x) == x
  {
    PatVal(I32, x);
  }

  // ----- exactly when -----

  /** The loop is element-wise, for every factor and every memory, exactly when there is one element at
      most or d does not begin inside b or c. */
  lemma ElementwiseIff(b: nat, c: nat, d: nat, n: nat)
    requires InSpace(b, c, d, n)
    ensures AlwaysElementwise(b, c, d, n) <==> Clear(b, c, d, n)
  {
    hide At, Entry, From, Norm, Pow2, InRange, JobOk;
    if Clear(b, c, d, n) {
      forall a: int, m: Mem | JobOk(m, Job(a, b, c, d, n))
        ensures IsElementwise(m, Job(a, b, c, d, n))
      {
        Elementwise(m, Job(a, b, c, d, n), 0);
      }
    } else {
      var both := Behind(d, c, n);
      var m, k := OverrunFails(b, c, d, n, both);
      assert !IsElementwise(m, Job(if both then 1 else 0, b, c, d, n));
    }
  }

  lemma Room()
    ensures Pow2(64) > 100
  {
    assert Pow2(8) == 256;
    Pow2Mono(8, 64);
  }

  /** Two elements copied one element ahead: the first is copied over the second before that is read. */
  lemma CopyAheadFails()
    ensures var m, j := OneAt(0), Job(0, 64, 0, 4, 2);
            JobOk(m, j) && At(From(m, j, 0), 4, 2, 1) != Entry(m, j, 1)
  {
    hide At, Entry, From, Pow2, OneAt, JobOk;
    Room();
    var m, k := OverrunFails(64, 0, 4, 2, false);
  }
}
