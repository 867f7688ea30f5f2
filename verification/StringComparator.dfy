/** The examples' second comparator: an i32 and then a length-prefixed byte string, ordered with a call
    to a generated `min` and memcmp over the common length. */
module StringComparator {
  import opened Bits
  import opened Types
  import opened Memory
  import opened Source
  import opened Ir
  import opened Lowering
  import opened Agreement
  import opened Correctness
  import opened Actions
  import opened Comparator

  const I32 := TInt(4, true)
  const U32 := TInt(4, false)

  /** The smaller of two lengths. */
  function Min(): FnDef {
    FnDef("min", [U32, U32], U32, IfThen(Rel(LtOp, Val(0, U32), Val(1, U32)), Return(Val(0, U32)), Return(Val(1, U32))))
  }

  function MinRef(): FnRef { FnRef(0, "min", [U32, U32], U32) }

  /** Where the string's bytes begin: past the key, then past the length. */
  function Bytes(level: nat): Expr { PtrArith(false, PtrArith(false, Val(level, BYTES), Lit(U64, 4)), Lit(U64, 4)) }

  /** What follows the call: memcmp, its sign, and the lengths. */
  function AfterMin(): Code {
    Act(MemCmp(Bytes(0), Bytes(1), Val(6, U32)),
      IfThen(Rel(LtOp, Val(7, I32), Lit(I32, 0)), Return(Lit(TBool, 1)),
        IfThen(Rel(GtOp, Val(7, I32), Lit(I32, 0)), Return(Lit(TBool, 0)),
          Return(Rel(LtOp, Val(4, U32), Val(5, U32))))))
  }

  /** The string part, once the first fields are known to be equal. */
  function StringCmp(): Code {
    Act(Field(0, U32, 4), Act(Field(1, U32, 4), Call(MinRef(), [Val(4, U32), Val(5, U32)], AfterMin())))
  }

  function StringLess(): FnDef { FnDef("less", [BYTES, BYTES], TBool, LessCmp(I32, 2, 0, StringCmp())) }

  function Program(): seq<FnDef> { [Min(), StringLess()] }

  // ----- byte strings -----

  function Str(m: Mem, a: nat, n: nat): seq<Byte>
    requires Mapped(m, a, n)
    decreases n
  {
    if n == 0 then [] else [m[a]] + Str(m, a + 1, n - 1)
  }

  /** Dictionary order: a proper prefix comes first. */
  predicate StrLess(s: seq<Byte>, t: seq<Byte>)
    decreases |s|
  {
    t != [] && (s == [] || s[0] < t[0] || (s[0] == t[0] && StrLess(s[1..], t[1..])))
  }

  lemma {:induction false} StrIrreflexive(s: seq<Byte>)
    ensures !StrLess(s, s)
    decreases |s|
  {
    if s != [] {
      StrIrreflexive(s[1..]);
    }
  }

  lemma {:induction false} StrTransitive(s: seq<Byte>, t: seq<Byte>, u: seq<Byte>)
    requires StrLess(s, t) && StrLess(t, u)
    ensures StrLess(s, u)
    decreases |s|
  {
    if s != [] && s[0] == t[0] == u[0] {
      StrTransitive(s[1..], t[1..], u[1..]);
    }
  }

  lemma {:induction false} StrTotal(s: seq<Byte>, t: seq<Byte>)
    ensures StrLess(s, t) || StrLess(t, s) || s == t
    decreases |s|
  {
    if s != [] && t != [] {
      StrTotal(s[1..], t[1..]);
      if s[0] == t[0] && s[1..] == t[1..] {
        assert s == [s[0]] + s[1..];
        assert t == [t[0]] + t[1..];
      }
    }
  }

  function MinOf(a: nat, b: nat): nat { if a < b then a else b }

  /** The sign of memcmp over the common length, then the lengths, decide dictionary order. */
  lemma {:induction false} CompareIsStrLess(m: Mem, a: nat, n: nat, b: nat, k: nat)
    requires Mapped(m, a, n) && Mapped(m, b, k)
    ensures var c := CompareBytes(m, a, b, MinOf(n, k));
            c.Some? && (StrLess(Str(m, a, n), Str(m, b, k)) <==> c.value < 0 || (c.value == 0 && n < k)) &&
            (c.value > 0 ==> StrLess(Str(m, b, k), Str(m, a, n)))
    decreases n
  {
    if n > 0 && k > 0 {
      assert a in m && b in m;
      CompareIsStrLess(m, a + 1, n - 1, b + 1, k - 1);
      StrCons(m, a, n);
      StrCons(m, b, k);
    }
  }

  lemma StrCons(m: Mem, a: nat, n: nat)
    requires n > 0 && Mapped(m, a, n)
    ensures Str(m, a, n) != [] && Str(m, a, n)[0] == m[a] && Str(m, a, n)[1..] == Str(m, a + 1, n - 1)
  {}

  // ----- records -----

  /** An encoded record: the i32, the length, and that many bytes, inside the address space. */
  predicate RecordAt(m: Mem, a: nat) {
    Mapped(m, a, 8) && a + 8 + FieldAt(m, a + 4, U32) <= Pow2(64) && FieldAt(m, a + 4, U32) >= 0 &&
    Mapped(m, a + 8, FieldAt(m, a + 4, U32))
  }

  lemma RecordFields(m: Mem, a: nat)
    requires RecordAt(m, a)
    ensures FieldOk(m, a, I32) && FieldOk(m, a + 4, U32)
    ensures var n := FieldAt(m, a + 4, U32);
            n >= 0 && InRange(U32, n) && a + 8 + n <= Pow2(64) && Mapped(m, a + 8, n)
  {
    IntFieldOk(m, a, I32);
    IntFieldOk(m, a + 4, U32);
    FieldLoads(m, a + 4, U32);
  }

  function Key(m: Mem, a: nat): int
    requires RecordAt(m, a)
  {
    FieldAt(m, a, I32)
  }

  function Payload(m: Mem, a: nat): seq<Byte>
    requires RecordAt(m, a)
  {
    Str(m, a + 8, FieldAt(m, a + 4, U32))
  }

  predicate RecordLess(x: int, s: seq<Byte>, y: int, t: seq<Byte>) { x < y || (x == y && StrLess(s, t)) }

  /** A strict total order on records. */
  lemma RecordOrder(x: int, s: seq<Byte>, y: int, t: seq<Byte>, z: int, u: seq<Byte>)
    ensures !RecordLess(x, s, x, s)
    ensures RecordLess(x, s, y, t) && RecordLess(y, t, z, u) ==> RecordLess(x, s, z, u)
    ensures RecordLess(x, s, y, t) || RecordLess(y, t, x, s) || (x == y && s == t)
  {
    StrIrreflexive(s);
    StrTotal(s, t);
    if StrLess(s, t) && StrLess(t, u) {
      StrTransitive(s, t, u);
    }
  }

  // ----- running it -----

  lemma MinRuns(fuel: nat, x: int, y: int, heap: Mem)
    requires InRange(U32, x) && InRange(U32, y)
    ensures Run(Program(), 0, fuel, Min().body, SState([SVal(U32, x), SVal(U32, y)], [], heap)) ==
            Returned(Some(SVal(U32, if x < y then x else y)), heap)
  {
    hide InRange;
    var src, st := Program(), SState([SVal(U32, x), SVal(U32, y)], [], heap);
    var test, yes, no := Rel(LtOp, Val(0, U32), Val(1, U32)), Return(Val(0, U32)), Return(Val(1, U32));
    assert Eval(test, st.env) == Some(if x < y then 1 else 0);
    assert Run(src, 0, fuel, IfThen(test, yes, no), st) == RunIfThen(src, 0, fuel, test, yes, no, st);
    assert Run(src, 0, fuel, yes, st) == RunReturn(src, 0, Val(0, U32), st);
    assert Run(src, 0, fuel, no, st) == RunReturn(src, 0, Val(1, U32), st);
    if x < y {
      ReturnsThrough(src, 0, fuel, Returned(Some(SVal(U32, x)), heap), no, st);
    }
  }

  /** Where a record's string begins; past the top of the address space, for an empty string there, is 0. */
  function BytesFrom(p: nat): nat { if p + 8 == Pow2(64) then 0 else p + 8 }

  lemma LastAddress(p: nat)
    requires p + 4 == Pow2(64)
    ensures Advance(false, p, 4, 1) == 0 && InRange(U64, 4) && InRange(BYTES, p)
  {
    assert Pow2(3) == 8;
    Pow2Mono(3, 64);
    hide Pow2;
    ScaledIsProduct(4, 1);
    ModShift(0, 1, Pow2(64));
    FieldAddress(0, 4);
  }

  lemma BytesAt(level: nat, env: Env, p: nat)
    requires level < |env| && env[level] == SVal(BYTES, p) && p + 8 <= Pow2(64)
    ensures Eval(Bytes(level), env) == Some(BytesFrom(p)) && TypeOf(Bytes(level)) == BYTES
  {
    hide Pow2;
    FieldAddress(p, 4);
    if p + 8 < Pow2(64) {
      FieldAddress(p + 4, 4);
    } else {
      LastAddress(p + 4);
    }
    assert Eval(PtrArith(false, Val(level, BYTES), Lit(U64, 4)), env) == Some(p + 4);
  }

  /** From the call's result on. */
  lemma AfterMinRuns(fuel: nat, st: SState, p: nat, q: nat, n: nat, k: nat)
    requires |st.env| == 7 && st.env[0] == SVal(BYTES, p) && st.env[1] == SVal(BYTES, q)
    requires st.env[4] == SVal(U32, n) && st.env[5] == SVal(U32, k) && st.env[6] == SVal(U32, MinOf(n, k))
    requires InRange(U32, n) && InRange(U32, k)
    requires p + 8 + n <= Pow2(64) && q + 8 + k <= Pow2(64) && Mapped(st.heap, p + 8, n) && Mapped(st.heap, q + 8, k)
    ensures Run(Program(), 1, fuel, AfterMin(), st) ==
            Returned(Some(SVal(TBool, if StrLess(Str(st.heap, p + 8, n), Str(st.heap, q + 8, k)) then 1 else 0)),
              st.heap)
  {
    hide Str, StrLess, Mapped, InRange, Bytes, AfterTests;
    CompareIsStrLess(st.heap, p + 8, n, q + 8, k);
    var c := CompareBytes(st.heap, p + 8, q + 8, MinOf(n, k)).value;
    SignBound(st.heap, p + 8, q + 8, MinOf(n, k));
    MemCmpDoes(st, p, q, n, k);
    var st1 := st.(env := st.env + [SVal(I32, c)]);
    assert Run(Program(), 1, fuel, AfterMin(), st) == RunAct(Program(), 1, fuel,
           MemCmp(Bytes(0), Bytes(1), Val(6, U32)), AfterTests(), st) by {
      AfterMinIs();
    }
    SignTests(fuel, st1, c, n, k);
  }

  function AfterTests(): Code {
    IfThen(Rel(LtOp, Val(7, I32), Lit(I32, 0)), Return(Lit(TBool, 1)),
      IfThen(Rel(GtOp, Val(7, I32), Lit(I32, 0)), Return(Lit(TBool, 0)),
        Return(Rel(LtOp, Val(4, U32), Val(5, U32)))))
  }

  lemma AfterMinIs()
    ensures AfterMin() == Act(MemCmp(Bytes(0), Bytes(1), Val(6, U32)), AfterTests())
  {}

  lemma MemCmpDoes(st: SState, p: nat, q: nat, n: nat, k: nat)
    requires |st.env| == 7 && st.env[0] == SVal(BYTES, p) && st.env[1] == SVal(BYTES, q) &&
             st.env[6] == SVal(U32, MinOf(n, k))
    requires InRange(U32, n) && InRange(U32, k) && p + 8 + n <= Pow2(64) && q + 8 + k <= Pow2(64)
    requires CompareBytes(st.heap, p + 8, q + 8, MinOf(n, k)).Some?
    ensures Do(MemCmp(Bytes(0), Bytes(1), Val(6, U32)), st) ==
            Some(st.(env := st.env + [SVal(I32, CompareBytes(st.heap, p + 8, q + 8, MinOf(n, k)).value)]))
  {
    hide CompareBytes, Bytes, InRange, Pow2, EvalArgs, BytesFrom;
    BytesAt(0, st.env, p);
    BytesAt(1, st.env, q);
    var e := [Bytes(0), Bytes(1), Val(6, U32)];
    var m := MinOf(n, k);
    ThreeArgs(Bytes(0), Bytes(1), Val(6, U32), st.env, BytesFrom(p), BytesFrom(q), m);
    SameCompare(st.heap, p, q, n, k);
  }

  /** An address past the top is never read: then the common length is zero. */
  lemma SameCompare(m: Mem, p: nat, q: nat, n: nat, k: nat)
    requires p + 8 + n <= Pow2(64) && q + 8 + k <= Pow2(64)
    ensures CompareBytes(m, BytesFrom(p), BytesFrom(q), MinOf(n, k)) == CompareBytes(m, p + 8, q + 8, MinOf(n, k))
  {
    hide Pow2;
  }

  lemma ThreeArgs(a: Expr, b: Expr, c: Expr, env: Env, x: int, y: int, z: int)
    requires Eval(a, env) == Some(x) && Eval(b, env) == Some(y) && Eval(c, env) == Some(z)
    ensures EvalArgs([a, b, c], env) == Some([SVal(TypeOf(a), x), SVal(TypeOf(b), y), SVal(TypeOf(c), z)])
  {
    hide Eval;
    assert [a, b, c][1..] == [b, c] && [b, c][1..] == [c] && [c][1..] == [];
    assert EvalArgs([], env) == Some([]);
    ConsArgs([c], env, z, []);
    assert [SVal(TypeOf(c), z)] + [] == [SVal(TypeOf(c), z)];
    ConsArgs([b, c], env, y, [SVal(TypeOf(c), z)]);
    assert [SVal(TypeOf(b), y)] + [SVal(TypeOf(c), z)] == [SVal(TypeOf(b), y), SVal(TypeOf(c), z)];
    ConsArgs([a, b, c], env, x, [SVal(TypeOf(b), y), SVal(TypeOf(c), z)]);
    assert [SVal(TypeOf(a), x)] + [SVal(TypeOf(b), y), SVal(TypeOf(c), z)] == [SVal(TypeOf(a), x), SVal(TypeOf(b), y),
           SVal(TypeOf(c), z)];
  }

  lemma ConsArgs(args: seq<Expr>, env: Env, x: int, vs: seq<SVal>)
    requires args != [] && Eval(args[0], env) == Some(x) && EvalArgs(args[1..], env) == Some(vs)
    ensures EvalArgs(args, env) == Some([SVal(TypeOf(args[0]), x)] + vs)
  {}

  lemma SmallInts(c: int)
    requires -Pow2(31) <= c < Pow2(31)
    ensures InRange(I32, c) && InRange(I32, 0)
  {}

  lemma SignTests(fuel: nat, st: SState, c: int, n: nat, k: nat)
    requires |st.env| == 8 && st.env[4] == SVal(U32, n) && st.env[5] == SVal(U32, k) && st.env[7] == SVal(I32, c)
    requires InRange(U32, n) && InRange(U32, k) && -Pow2(31) <= c < Pow2(31)
    ensures Run(Program(), 1, fuel, AfterTests(), st) ==
            Returned(Some(SVal(TBool, if c < 0 || (c == 0 && n < k) then 1 else 0)), st.heap)
  {
    hide InRange, Pow2, Eval;
    SmallInts(c);
    var last := Return(Rel(LtOp, Val(4, U32), Val(5, U32)));
    var second := IfThen(Rel(GtOp, Val(7, I32), Lit(I32, 0)), Return(Lit(TBool, 0)), last);
    ZeroTest(fuel, LtOp, 1, second, st, c);
    ZeroTest(fuel, GtOp, 0, last, st, c);
    LengthTest(fuel, st, n, k);
    assert AfterTests() == IfThen(Rel(LtOp, Val(7, I32), Lit(I32, 0)), Return(Lit(TBool, 1)), second);
  }

  lemma LengthTest(fuel: nat, st: SState, n: nat, k: nat)
    requires |st.env| == 8 && st.env[4] == SVal(U32, n) && st.env[5] == SVal(U32, k) && InRange(U32, n) &&
             InRange(U32, k)
    ensures Run(Program(), 1, fuel, Return(Rel(LtOp, Val(4, U32), Val(5, U32))), st) ==
            Returned(Some(SVal(TBool, if n < k then 1 else 0)), st.heap)
  {
    hide InRange;
    var e := Rel(LtOp, Val(4, U32), Val(5, U32));
    assert Eval(e, st.env) == Some(if n < k then 1 else 0);
    assert Run(Program(), 1, fuel, Return(e), st) == RunReturn(Program(), 1, e, st);
  }

  /** The sign of memcmp's result tested, and a truth value returned if the test holds. */
  lemma ZeroTest(fuel: nat, op: RelOp, v: int, next: Code, st: SState, c: int)
    requires |st.env| == 8 && st.env[7] == SVal(I32, c) && InRange(I32, c) && InRange(I32, 0) && (v == 0 || v == 1)
    ensures Run(Program(), 1, fuel, IfThen(Rel(op, Val(7, I32), Lit(I32, 0)), Return(Lit(TBool, v)), next), st) ==
            if Relation(op, c, 0) then Returned(Some(SVal(TBool, v)), st.heap) else Run(Program(), 1, fuel, next, st)
  {
    hide InRange;
    BoolLit(v);
    var src, test, ret := Program(), Rel(op, Val(7, I32), Lit(I32, 0)), Return(Lit(TBool, v));
    assert Eval(test, st.env) == Some(if Relation(op, c, 0) then 1 else 0);
    assert Run(src, 1, fuel, IfThen(test, ret, next), st) == RunIfThen(src, 1, fuel, test, ret, next, st);
    assert Run(src, 1, fuel, ret, st) == RunReturn(src, 1, Lit(TBool, v), st) ==
           Returned(Some(SVal(TBool, v)), st.heap);
    if Relation(op, c, 0) {
      ReturnsThrough(src, 1, fuel, Returned(Some(SVal(TBool, v)), st.heap), next, st);
    }
  }

  /** The string part. */
  lemma StringCmpRuns(fuel: nat, st: SState, p: nat, q: nat)
    requires |st.env| == 4 && st.env[0] == SVal(BYTES, p) && st.env[1] == SVal(BYTES, q)
    requires RecordAt(st.heap, p) && RecordAt(st.heap, q)
    ensures Run(Program(), 1, fuel, StringCmp(), st) ==
            Returned(Some(SVal(TBool, if StrLess(Payload(st.heap, p), Payload(st.heap, q)) then 1 else 0)), st.heap)
  {
    hide RecordAt, Mapped, Pow2, TypeOf, LoadTy, Str, StrLess, InRange, Field, FieldAt, FieldOk, Do, AfterMin, MinRef,
         Min;
    RecordFields(st.heap, p);
    RecordFields(st.heap, q);
    var n, k := FieldAt(st.heap, p + 4, U32), FieldAt(st.heap, q + 4, U32);
    var st1, st2 := st.(env := st.env + [SVal(U32, n)]), st.(env := st.env + [SVal(U32, n), SVal(U32, k)]);
    FieldReads(0, U32, 4, st, p);
    FieldReads(1, U32, 4, st1, q);
    assert st1.env + [SVal(U32, k)] == st2.env;
    RunActs(Program(), 1, fuel, Field(0, U32, 4), Field(1, U32, 4),
        Call(MinRef(), [Val(4, U32), Val(5, U32)], AfterMin()), st, st1, st2);
    CallMin(fuel, st2, n, k);
    AfterMinRuns(fuel, st2.(env := st2.env + [SVal(U32, MinOf(n, k))]), p, q, n, k);
  }

  lemma CallMin(fuel: nat, st: SState, n: nat, k: nat)
    requires |st.env| == 6 && st.env[4] == SVal(U32, n) && st.env[5] == SVal(U32, k) && InRange(U32, n) &&
             InRange(U32, k)
    ensures Run(Program(), 1, fuel, Call(MinRef(), [Val(4, U32), Val(5, U32)], AfterMin()), st) ==
            Run(Program(), 1, fuel, AfterMin(), st.(env := st.env + [SVal(U32, MinOf(n, k))]))
  {
    hide InRange, AfterMin;
    var src, args, vs := Program(), [Val(4, U32), Val(5, U32)], [SVal(U32, n), SVal(U32, k)];
    TwoArgs(st.env, n, k);
    assert CallOk(src, 1, MinRef(), vs) by {
      assert ParamTypes(vs) == [U32, U32];
    }
    MinRuns(fuel, n, k, st.heap);
    assert Run(src, 1, fuel, Call(MinRef(), args, AfterMin()), st) ==
           RunCall(src, 1, fuel, MinRef(), args, AfterMin(), st);
  }

  lemma TwoArgs(env: Env, n: nat, k: nat)
    requires |env| == 6 && env[4] == SVal(U32, n) && env[5] == SVal(U32, k) && InRange(U32, n) && InRange(U32, k)
    ensures EvalArgs([Val(4, U32), Val(5, U32)], env) == Some([SVal(U32, n), SVal(U32, k)])
  {
    hide InRange;
    var a, b := Val(4, U32), Val(5, U32);
    assert [a, b][1..] == [b] && [b][1..] == [];
    assert EvalArgs([], env) == Some([]);
    ConsArgs([b], env, k, []);
    assert [SVal(U32, k)] + [] == [SVal(U32, k)];
    ConsArgs([a, b], env, n, [SVal(U32, k)]);
    assert [SVal(U32, n)] + [SVal(U32, k)] == [SVal(U32, n), SVal(U32, k)];
  }

  // ----- end to end -----

  /** The compiled pair of functions decides the order of records, whatever the strings' lengths. */
  lemma StringComparatorCorrect(p: nat, q: nat, heap: Mem, sp: nat, mem: Mem) returns (n: nat)
    requires RecordAt(heap, p) && RecordAt(heap, q) && HeapMatch(heap, mem, sp)
    ensures var s := Steps(Compile(Program()), n, Start(1, [SVal(BYTES, p), SVal(BYTES, q)], sp, mem));
            s.Halted? &&
            s.result == Some(if RecordLess(Key(heap, p), Payload(heap, p), Key(heap, q), Payload(heap, q)) then 1
              else 0) &&
            forall a :: a in mem && a < sp ==> a in s.mem && s.mem[a] == mem[a]
  {
    hide Steps, Compile, Program, RecordLess, Key, Payload, Start, CallReady, RunFunction, RecordAt, HeapMatch;
    StringReturns(p, q, heap);
    StringReady(p, q, heap, sp, mem);
    var v := if RecordLess(Key(heap, p), Payload(heap, p), Key(heap, q), Payload(heap, q)) then 1 else 0;
    n := TruthReturned(Program(), 1, 0, [SVal(BYTES, p), SVal(BYTES, q)], heap, sp, mem, v);
  }

  lemma StringReturns(p: nat, q: nat, heap: Mem)
    requires RecordAt(heap, p) && RecordAt(heap, q)
    ensures var less := RecordLess(Key(heap, p), Payload(heap, p), Key(heap, q), Payload(heap, q));
            RunFunction(Program(), 1, 0, [SVal(BYTES, p), SVal(BYTES, q)], heap) ==
            Returned(Some(SVal(TBool, if less then 1 else 0)), heap)
  {
    hide RecordAt, Mapped, Pow2, TypeOf, LoadTy, StringCmp, FieldAt, FieldOk, Str, StrLess, Min, LessCmp, InRange, Run;
    RecordFields(heap, p);
    RecordFields(heap, q);
    var st := SState([SVal(BYTES, p), SVal(BYTES, q)], [], heap);
    var x, y := Key(heap, p), Key(heap, q);
    LessCmpRuns(Program(), 1, 0, I32, 0, StringCmp(), st, p, q);
    StringCmpRuns(0, st.(env := st.env + [SVal(I32, x), SVal(I32, y)]), p, q);
  }

  lemma StringReady(p: nat, q: nat, heap: Mem, sp: nat, mem: Mem)
    requires RecordAt(heap, p) && RecordAt(heap, q) && HeapMatch(heap, mem, sp)
    ensures CallReady(Program(), Compile(Program()), 1, [SVal(BYTES, p), SVal(BYTES, q)], heap, sp, mem)
  {
    hide Compile, StringCmp, FieldAt, Min, LessCmp, InRange, ProgramOk, AllInRange, HeapMatch;
    AddressesFit(p);
    AddressesFit(q);
    StringProgram([SVal(BYTES, p), SVal(BYTES, q)]);
  }

  lemma AddressesFit(a: nat)
    requires a < Pow2(64)
    ensures InRange(BYTES, a)
  {}

  lemma StringProgram(vs: seq<SVal>)
    requires |vs| == 2 && vs[0].ty == BYTES && vs[1].ty == BYTES && InRange(BYTES, vs[0].v) && InRange(BYTES, vs[1].v)
    ensures ProgramOk(Program(), Compile(Program())) && ParamTypes(vs) == [BYTES, BYTES] && AllInRange(vs)
  {
    hide LoopOk, Min, StringLess, Compile, InRange;
    BodiesLoops();
  }

  lemma BodiesLoops()
    ensures LoopOk(Min().body, false) && LoopOk(StringLess().body, false)
  {
    TestsLoops();
    LessCmpLoops(I32, 2, 0, StringCmp());
  }

  lemma TestsLoops()
    ensures LoopOk(StringCmp(), false)
  {
    var last := Return(Rel(LtOp, Val(4, U32), Val(5, U32)));
    var second := IfThen(Rel(GtOp, Val(7, I32), Lit(I32, 0)), Return(Lit(TBool, 0)), last);
    assert LoopOk(second, false);
    assert LoopOk(AfterTests(), false);
    assert LoopOk(AfterMin(), false);
    assert LoopOk(Call(MinRef(), [Val(4, U32), Val(5, U32)], AfterMin()), false);
    assert LoopOk(Act(Field(1, U32, 4), Call(MinRef(), [Val(4, U32), Val(5, U32)], AfterMin())), false);
  }
}
