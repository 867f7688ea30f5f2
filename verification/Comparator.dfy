/** The comparator generator of the examples: a meta-program that chains one three-way test a field.
    What it generates, compiled, decides lexicographic order, for every list of integer and bool fields. */
module Comparator {
  import opened Bits
  import opened Types
  import opened Memory
  import opened Source
  import opened Ir
  import opened Lowering
  import opened Agreement
  import opened Correctness

  const BYTES := TPtr(TByte)

  const U64 := TInt(8, false)

  /** The field of type t that lies off bytes into a tuple, loaded through a pointer to its type. */
  function Field(level: nat, t: Ty, off: nat): Action {
    ReadValue(RLoad(BitCast(TPtr(t), PtrArith(false, Val(level, BYTES), Lit(U64, off)))))
  }

  /** less_cmp: load the field of both tuples, and decide unless they are equal. n values are in scope. */
  function LessCmp(t: Ty, n: nat, off: nat, rest: Code): Code {
    Act(Field(0, t, off), Act(Field(1, t, off),
      IfThen(Rel(LtOp, Val(n, t), Val(n + 1, t)), Return(Lit(TBool, 1)),
        IfThen(Rel(GtOp, Val(n, t), Val(n + 1, t)), Return(Lit(TBool, 0)), rest))))
  }

  /** One less_cmp a field, at the running offset, and then return false. */
  function Chain(fields: seq<Ty>, n: nat, off: nat): Code {
    if fields == [] then Return(Lit(TBool, 0))
    else LessCmp(fields[0], n, off, Chain(fields[1..], n + 2, off + Size(fields[0])))
  }

  function Less(fields: seq<Ty>): FnDef { FnDef("less", [BYTES, BYTES], TBool, Chain(fields, 2, 0)) }

  // ----- tuples in memory -----

  /** A field that can be loaded: its bytes are there, and a bool's byte is 0 or 1. */
  predicate FieldOk(m: Mem, a: nat, t: Ty) { IsIntegral(t) && LoadTy(m, a, t).Some? }

  predicate TupleOk(m: Mem, a: nat, fields: seq<Ty>)
    decreases |fields|
  {
    fields == [] || (FieldOk(m, a, fields[0]) && TupleOk(m, a + Size(fields[0]), fields[1..]))
  }

  function Total(fields: seq<Ty>): nat { if fields == [] then 0 else Size(fields[0]) + Total(fields[1..]) }

  function FieldAt(m: Mem, a: nat, t: Ty): int {
    match LoadTy(m, a, t)
    case Some(p) => ValOf(t, p)
    case None => 0
  }

  /** The field values of the packed tuple at a. */
  function Decode(m: Mem, a: nat, fields: seq<Ty>): (vs: seq<int>)
    ensures |vs| == |fields|
    decreases |fields|
  {
    if fields == [] then []
    else [FieldAt(m, a, fields[0])] + Decode(m, a + Size(fields[0]), fields[1..])
  }

  /** Strict lexicographic order. */
  predicate Lex(xs: seq<int>, ys: seq<int>)
    requires |xs| == |ys|
    decreases |xs|
  {
    xs != [] && (xs[0] < ys[0] || (xs[0] == ys[0] && Lex(xs[1..], ys[1..])))
  }

  lemma {:induction false} LexIrreflexive(xs: seq<int>)
    ensures !Lex(xs, xs)
    decreases |xs|
  {
    if xs != [] {
      LexIrreflexive(xs[1..]);
    }
  }

  lemma {:induction false} LexTransitive(xs: seq<int>, ys: seq<int>, zs: seq<int>)
    requires |xs| == |ys| == |zs| && Lex(xs, ys) && Lex(ys, zs)
    ensures Lex(xs, zs)
    decreases |xs|
  {
    if xs[0] == ys[0] == zs[0] {
      LexTransitive(xs[1..], ys[1..], zs[1..]);
    }
  }

  lemma {:induction false} LexTotal(xs: seq<int>, ys: seq<int>)
    requires |xs| == |ys|
    ensures Lex(xs, ys) || Lex(ys, xs) || xs == ys
    ensures !(Lex(xs, ys) && Lex(ys, xs))
    decreases |xs|
  {
    if xs != [] {
      LexTotal(xs[1..], ys[1..]);
      if xs[1..] == ys[1..] && xs[0] == ys[0] {
        assert xs == [xs[0]] + xs[1..];
        assert ys == [ys[0]] + ys[1..];
      }
    }
  }

  // ----- one field -----

  lemma FieldAddress(p: nat, off: nat)
    requires p + off < Pow2(64)
    ensures Advance(false, p, off, 1) == p + off && InRange(U64, off) && InRange(BYTES, p)
  {
    ScaledIsProduct(off, 1);
    ModSmall(p + off, Pow2(64));
  }

  lemma FieldPointer(level: nat, t: Ty, off: nat, env: Env, p: nat)
    requires level < |env| && env[level] == SVal(BYTES, p) && p + off < Pow2(64)
    ensures var e := BitCast(TPtr(t), PtrArith(false, Val(level, BYTES), Lit(U64, off)));
            Eval(e, env) == Some(p + off) && TypeOf(e) == TPtr(t)
  {
    hide Pow2, InRange, Advance, ValOf, PatOf;
    FieldAddress(p, off);
    PointerBits(t, p + off);
    var ptr := PtrArith(false, Val(level, BYTES), Lit(U64, off));
    assert Eval(ptr, env) == Some(p + off);
  }

  /** Integer fields only need their bytes. */
  lemma IntFieldOk(m: Mem, a: nat, t: Ty)
    requires t.TInt? && Mapped(m, a, Size(t))
    ensures FieldOk(m, a, t)
  {
    ReadMapped(m, a, Size(t));
    ReadBound(m, a, Size(t));
  }

  lemma {:induction false} IntTupleOk(m: Mem, a: nat, fields: seq<Ty>)
    requires (forall i :: 0 <= i < |fields| ==> fields[i].TInt?) && Mapped(m, a, Total(fields))
    ensures TupleOk(m, a, fields)
    decreases |fields|
  {
    if fields != [] {
      IntFieldOk(m, a, fields[0]);
      IntTupleOk(m, a + Size(fields[0]), fields[1..]);
    }
  }

  lemma FieldLoads(m: Mem, a: nat, t: Ty)
    requires FieldOk(m, a, t)
    ensures LoadTy(m, a, t).Some? && ValOf(t, LoadTy(m, a, t).value) == FieldAt(m, a, t) && InRange(t, FieldAt(m, a, t))
    ensures !t.TVoid? && IsIntegral(t)
  {
    ValInRange(t, LoadTy(m, a, t).value);
  }

  lemma FieldReads(level: nat, t: Ty, off: nat, st: SState, p: nat)
    requires level < |st.env| && st.env[level] == SVal(BYTES, p)
    requires p + off + Size(t) <= Pow2(64) && FieldOk(st.heap, p + off, t)
    ensures Do(Field(level, t, off), st) == Some(st.(env := st.env + [SVal(t, FieldAt(st.heap, p + off, t))]))
    ensures InRange(t, FieldAt(st.heap, p + off, t))
  {
    hide Pow2, InRange, FieldAt, LoadTy, ValOf, Eval, FieldOk;
    FieldLoads(st.heap, p + off, t);
    FieldPointer(level, t, off, st.env, p);
  }

  lemma PointerBits(t: Ty, a: nat)
    requires a < Pow2(64)
    ensures ValOf(TPtr(t), PatOf(BYTES, a)) == a && BitCastOk(BYTES, TPtr(t))
  {
    ModSmall(a, Pow2(64));
  }

  lemma {:induction false} ReadBound(m: Mem, a: nat, n: nat)
    requires ReadLE(m, a, n).Some?
    ensures ReadLE(m, a, n).value < Pow2(8 * n)
    decreases n
  {
    if n > 0 {
      ReadBound(m, a + 1, n - 1);
      Pow2Add(8, 8 * (n - 1));
      assert Pow2(8) == 256;
    }
  }

  /** One less_cmp: decides on unequal fields, and otherwise goes on with the field values in scope. */
  lemma LessCmpRuns(src: seq<FnDef>, k: nat, fuel: nat, t: Ty, off: nat, rest: Code, st: SState, p: nat, q: nat)
    requires k < |src| && src[k].ret == TBool && |st.env| >= 2 && st.env[0] == SVal(BYTES, p) &&
             st.env[1] == SVal(BYTES, q)
    requires p + off + Size(t) <= Pow2(64) && FieldOk(st.heap, p + off, t)
    requires q + off + Size(t) <= Pow2(64) && FieldOk(st.heap, q + off, t)
    ensures var x, y := FieldAt(st.heap, p + off, t), FieldAt(st.heap, q + off, t);
            Run(src, k, fuel, LessCmp(t, |st.env|, off, rest), st) ==
            if x < y then Returned(Some(SVal(TBool, 1)), st.heap)
            else if x > y then Returned(Some(SVal(TBool, 0)), st.heap)
            else Run(src, k, fuel, rest, st.(env := st.env + [SVal(t, x), SVal(t, y)]))
  {
    hide FieldAt, Field, Do, InRange, FieldOk, Pow2, Eval;
    FieldLoads(st.heap, p + off, t);
    FieldLoads(st.heap, q + off, t);
    var n, x, y := |st.env|, FieldAt(st.heap, p + off, t), FieldAt(st.heap, q + off, t);
    var st1 := st.(env := st.env + [SVal(t, x)]);
    var st2 := st.(env := st.env + [SVal(t, x), SVal(t, y)]);
    FieldReads(0, t, off, st, p);
    FieldReads(1, t, off, st1, q);
    assert st1.env + [SVal(t, y)] == st2.env;
    var second := IfThen(Rel(GtOp, Val(n, t), Val(n + 1, t)), Return(Lit(TBool, 0)), rest);
    var first := IfThen(Rel(LtOp, Val(n, t), Val(n + 1, t)), Return(Lit(TBool, 1)), second);
    RunActs(src, k, fuel, Field(0, t, off), Field(1, t, off), first, st, st1, st2);
    TestReturns(src, k, fuel, LtOp, t, n, 1, second, st2, x, y);
    TestReturns(src, k, fuel, GtOp, t, n, 0, rest, st2, x, y);
  }

  lemma RunActs(src: seq<FnDef>, k: nat, fuel: nat, a: Action, b: Action, next: Code, st: SState, st1: SState,
      st2: SState)
    requires Do(a, st) == Some(st1) && Do(b, st1) == Some(st2)
    ensures Run(src, k, fuel, Act(a, Act(b, next)), st) == Run(src, k, fuel, next, st2)
  {
    hide Do;
    assert Run(src, k, fuel, Act(a, Act(b, next)), st) == RunAct(src, k, fuel, a, Act(b, next), st);
    assert Run(src, k, fuel, Act(b, next), st1) == RunAct(src, k, fuel, b, next, st1);
  }

  /** A comparison of two values in scope, and a truth value returned if it holds. */
  lemma TestReturns(src: seq<FnDef>, k: nat, fuel: nat, op: RelOp, t: Ty, n: nat, v: int, next: Code, st: SState,
      x: int, y: int)
    requires k < |src| && src[k].ret == TBool && IsIntegral(t) && n + 1 < |st.env| && (v == 0 || v == 1)
    requires st.env[n] == SVal(t, x) && st.env[n + 1] == SVal(t, y) && InRange(t, x) && InRange(t, y)
    ensures Run(src, k, fuel, IfThen(Rel(op, Val(n, t), Val(n + 1, t)), Return(Lit(TBool, v)), next), st) ==
            if Relation(op, x, y) then Returned(Some(SVal(TBool, v)), st.heap) else Run(src, k, fuel, next, st)
  {
    hide InRange;
    BoolLit(v);
    var test, ret := Rel(op, Val(n, t), Val(n + 1, t)), Return(Lit(TBool, v));
    assert Eval(test, st.env) == Some(if Relation(op, x, y) then 1 else 0);
    assert Run(src, k, fuel, IfThen(test, ret, next), st) == RunIfThen(src, k, fuel, test, ret, next, st);
    assert Run(src, k, fuel, ret, st) == RunReturn(src, k, Lit(TBool, v), st) ==
           Returned(Some(SVal(TBool, v)), st.heap);
    if Relation(op, x, y) {
      ReturnsThrough(src, k, fuel, Returned(Some(SVal(TBool, v)), st.heap), next, st);
    }
  }

  lemma ReturnsThrough(src: seq<FnDef>, k: nat, fuel: nat, a: Outcome, next: Code, st: SState)
    requires a.Returned?
    ensures AfterArm(src, k, fuel, a, next, st) == a
  {}

  lemma BoolLit(v: int)
    requires v == 0 || v == 1
    ensures InRange(TBool, v)
  {
    assert Pow2(1) == 2;
  }

  // ----- the whole chain -----

  lemma {:induction false} ChainRuns(src: seq<FnDef>, k: nat, fuel: nat, fields: seq<Ty>, off: nat, st: SState, p: nat,
      q: nat)
    requires k < |src| && src[k].ret == TBool
    requires |st.env| >= 2 && st.env[0] == SVal(BYTES, p) && st.env[1] == SVal(BYTES, q)
    requires p + off + Total(fields) <= Pow2(64) && TupleOk(st.heap, p + off, fields)
    requires q + off + Total(fields) <= Pow2(64) && TupleOk(st.heap, q + off, fields)
    ensures Run(src, k, fuel, Chain(fields, |st.env|, off), st) ==
            Returned(Some(SVal(TBool, if Lex(Decode(st.heap, p + off, fields), Decode(st.heap, q + off, fields)) then 1
              else 0)), st.heap)
    decreases |fields|
  {
    hide FieldAt, FieldOk, LessCmp, Pow2, InRange, Decode;
    if fields == [] {
      BoolLit(0);
    } else {
      var t, n := fields[0], |st.env|;
      var x, y := FieldAt(st.heap, p + off, t), FieldAt(st.heap, q + off, t);
      var st1 := st.(env := st.env + [SVal(t, x), SVal(t, y)]);
      var rest := Chain(fields[1..], n + 2, off + Size(t));
      DecodeCons(st.heap, p + off, fields);
      DecodeCons(st.heap, q + off, fields);
      LessCmpRuns(src, k, fuel, t, off, rest, st, p, q);
      ChainRuns(src, k, fuel, fields[1..], off + Size(t), st1, p, q);
    }
  }

  lemma DecodeCons(m: Mem, a: nat, fields: seq<Ty>)
    requires fields != [] && TupleOk(m, a, fields)
    ensures FieldOk(m, a, fields[0]) && TupleOk(m, a + Size(fields[0]), fields[1..])
    ensures Decode(m, a, fields)[0] == FieldAt(m, a, fields[0])
    ensures Decode(m, a, fields)[1..] == Decode(m, a + Size(fields[0]), fields[1..])
  {}

  // ----- end to end -----

  /** Two packed tuples, within the address space; nothing else need be readable. */
  predicate TuplesAt(heap: Mem, p: nat, q: nat, fields: seq<Ty>) {
    p + Total(fields) <= Pow2(64) && TupleOk(heap, p, fields) && q + Total(fields) <= Pow2(64) &&
    TupleOk(heap, q, fields)
  }

  /** A function that returns a truth value and writes nothing does so on the machine. */
  lemma TruthReturned(src: seq<FnDef>, j: nat, fuel: nat, vs: seq<SVal>, heap: Mem, sp: nat, mem: Mem, v: int)
    returns (n: nat)
    requires CallReady(src, Compile(src), j, vs, heap, sp, mem) && (v == 0 || v == 1)
    requires RunFunction(src, j, fuel, vs, heap) == Returned(Some(SVal(TBool, v)), heap)
    ensures var s := Steps(Compile(src), n, Start(j, vs, sp, mem));
            s.Halted? && s.result == Some(v) && forall a :: a in mem && a < sp ==> a in s.mem && s.mem[a] == mem[a]
  {
    hide Steps, Compile, CallReady, RunFunction, Start, InRange;
    n := RunPreserved(src, Compile(src), j, fuel, vs, heap, sp, mem);
    BoolResult(v);
    ReadyHeap(src, Compile(src), j, vs, heap, sp, mem);
  }

  lemma ReadyHeap(src: seq<FnDef>, fns: seq<Fn>, j: nat, vs: seq<SVal>, heap: Mem, sp: nat, mem: Mem)
    requires CallReady(src, fns, j, vs, heap, sp, mem)
    ensures HeapMatch(heap, mem, sp)
  {}

  /** The generated comparator, run on the machine against any memory that holds the two tuples, halts
      with 1 or 0 as the decoded tuples are in order or not, and leaves memory as it was. The heap it is
      given may be just the tuples' own bytes: it reads nothing else. */
  lemma ComparatorCorrect(fields: seq<Ty>, p: nat, q: nat, heap: Mem, sp: nat, mem: Mem) returns (n: nat)
    requires TuplesAt(heap, p, q, fields) && p < Pow2(64) && q < Pow2(64) &&
             HeapMatch(heap, mem, sp)
    ensures var src := [Less(fields)];
            var s := Steps(Compile(src), n, Start(0, [SVal(BYTES, p), SVal(BYTES, q)], sp, mem));
            s.Halted? && s.result == Some(if Lex(Decode(heap, p, fields), Decode(heap, q, fields)) then 1 else 0) &&
            forall a :: a in mem && a < sp ==> a in s.mem && s.mem[a] == mem[a]
  {
    hide Steps, Compile, Less, Lex, Decode, Start, CallReady, RunFunction, HeapMatch, Pow2;
    var src, vs := [Less(fields)], [SVal(BYTES, p), SVal(BYTES, q)];
    LessReturns(fields, p, q, heap);
    LessReady(fields, p, q, heap, sp, mem);
    var v := if Lex(Decode(heap, p, fields), Decode(heap, q, fields)) then 1 else 0;
    n := TruthReturned(src, 0, 0, vs, heap, sp, mem, v);
  }

  lemma LessReturns(fields: seq<Ty>, p: nat, q: nat, heap: Mem)
    requires TuplesAt(heap, p, q, fields)
    ensures RunFunction([Less(fields)], 0, 0, [SVal(BYTES, p), SVal(BYTES, q)], heap) ==
            Returned(Some(SVal(TBool, if Lex(Decode(heap, p, fields), Decode(heap, q, fields)) then 1 else 0)), heap)
  {
    hide Chain, Lex, Decode, Run, Pow2, TupleOk;
    ChainRuns([Less(fields)], 0, 0, fields, 0, SState([SVal(BYTES, p), SVal(BYTES, q)], [], heap), p, q);
  }

  lemma LessReady(fields: seq<Ty>, p: nat, q: nat, heap: Mem, sp: nat, mem: Mem)
    requires p < Pow2(64) && q < Pow2(64) && HeapMatch(heap, mem, sp)
    ensures CallReady([Less(fields)], Compile([Less(fields)]), 0, [SVal(BYTES, p), SVal(BYTES, q)], heap, sp, mem)
  {
    hide Compile, Chain, ProgramOk, AllInRange, HeapMatch;
    LessProgram(fields, [SVal(BYTES, p), SVal(BYTES, q)]);
  }

  lemma LessProgram(fields: seq<Ty>, vs: seq<SVal>)
    requires |vs| == 2 && vs[0].ty == BYTES && vs[1].ty == BYTES && InRange(BYTES, vs[0].v) && InRange(BYTES, vs[1].v)
    ensures ProgramOk([Less(fields)], Compile([Less(fields)])) && ParamTypes(vs) == [BYTES, BYTES] && AllInRange(vs)
  {
    ChainLoops(fields, 2, 0);
  }

  lemma {:induction false} ChainLoops(fields: seq<Ty>, n: nat, off: nat)
    ensures LoopOk(Chain(fields, n, off), false)
    decreases |fields|
  {
    if fields != [] {
      ChainLoops(fields[1..], n + 2, off + Size(fields[0]));
      LessCmpLoops(fields[0], n, off, Chain(fields[1..], n + 2, off + Size(fields[0])));
    }
  }

  lemma LessCmpLoops(t: Ty, n: nat, off: nat, rest: Code)
    requires LoopOk(rest, false)
    ensures LoopOk(LessCmp(t, n, off, rest), false)
  {
    var second := IfThen(Rel(GtOp, Val(n, t), Val(n + 1, t)), Return(Lit(TBool, 0)), rest);
    assert LoopOk(second, false);
    var first := IfThen(Rel(LtOp, Val(n, t), Val(n + 1, t)), Return(Lit(TBool, 1)), second);
    assert LoopOk(first, false);
    assert LoopOk(Act(Field(1, t, off), first), false);
  }

  lemma BoolResult(v: int)
    requires v == 0 || v == 1
    ensures PatOf(TBool, v) == v
  {
    assert Pow2(1) == 2;
  }

  // ----- what the order means on memory -----

  function ByteAt(m: Mem, a: nat, i: nat): Option<Byte> { if a + i in m then Some(m[a + i]) else None }

  predicate SameBytes(m: Mem, a: nat, b: nat, n: nat) { forall i :: 0 <= i < n ==> ByteAt(m, a, i) == ByteAt(m, b, i) }

  lemma SameBytesJoin(m: Mem, a: nat, b: nat, k: nat, n: nat)
    requires SameBytes(m, a, b, k) && SameBytes(m, a + k, b + k, n)
    ensures SameBytes(m, a, b, k + n)
  {
    forall i | 0 <= i < k + n
      ensures ByteAt(m, a, i) == ByteAt(m, b, i)
    {
      if i >= k {
        assert ByteAt(m, a + k, i - k) == ByteAt(m, b + k, i - k);
      }
    }
  }

  lemma {:induction false} ReadInjective(m: Mem, a: nat, b: nat, n: nat)
    requires Mapped(m, a, n) && Mapped(m, b, n) && ReadLE(m, a, n) == ReadLE(m, b, n)
    ensures SameBytes(m, a, b, n)
    decreases n
  {
    if n > 0 {
      assert a in m && b in m;
      ReadMapped(m, a + 1, n - 1);
      ReadMapped(m, b + 1, n - 1);
      ReadInjective(m, a + 1, b + 1, n - 1);
      assert SameBytes(m, a, b, 1);
      SameBytesJoin(m, a, b, 1, n - 1);
    }
  }

  lemma FieldInjective(m: Mem, a: nat, b: nat, t: Ty)
    requires FieldOk(m, a, t) && FieldOk(m, b, t) && FieldAt(m, a, t) == FieldAt(m, b, t)
    ensures SameBytes(m, a, b, Size(t))
  {
    ReadMapped(m, a, Size(t));
    ReadMapped(m, b, Size(t));
    ValInRange(t, LoadTy(m, a, t).value);
    ValInRange(t, LoadTy(m, b, t).value);
    ReadInjective(m, a, b, Size(t));
  }

  /** Tuples that neither precede nor follow each other are the same bytes. */
  lemma {:induction false} EquivalentIsEqual(m: Mem, a: nat, b: nat, fields: seq<Ty>)
    requires TupleOk(m, a, fields) && TupleOk(m, b, fields)
    requires !Lex(Decode(m, a, fields), Decode(m, b, fields)) && !Lex(Decode(m, b, fields), Decode(m, a, fields))
    ensures SameBytes(m, a, b, Total(fields))
    decreases |fields|
  {
    hide FieldAt, FieldOk, SameBytes;
    LexTotal(Decode(m, a, fields), Decode(m, b, fields));
    if fields != [] {
      var n := Size(fields[0]);
      DecodeCons(m, a, fields);
      DecodeCons(m, b, fields);
      FieldInjective(m, a, b, fields[0]);
      LexIrreflexive(Decode(m, a + n, fields[1..]));
      EquivalentIsEqual(m, a + n, b + n, fields[1..]);
      SameBytesJoin(m, a, b, n, Total(fields[1..]));
    } else {
      NoBytes(m, a, b);
    }
  }

  lemma NoBytes(m: Mem, a: nat, b: nat)
    ensures SameBytes(m, a, b, 0)
  {}
}
