/** The examples' array loop: d[i] = a * b[i] + c[i] for i below n. The loop the builder makes of it
    computes exactly that, for every length and wherever the arrays lie. */
module SoaCompute {
  import opened Bits
  import opened Types
  import opened Memory
  import opened Source
  import opened Ir
  import opened Lowering
  import opened Agreement
  import opened Correctness
  import opened Comparator
  import opened StringComparator

  const INTS := TPtr(I32)

  /** The current element of the array whose pointer is at this level. */
  function Element(level: nat): Expr { PtrArith(false, Val(level, INTS), Val(5, U64)) }

  function Sum(): Expr { Arith(PlusOp, Arith(TimesOp, Val(0, I32), Val(6, I32)), Val(7, I32)) }

  /** The index is got once; two elements are loaded, their combination stored, and the index advanced. */
  function Iteration(): Code {
    Act(ReadValue(RGet(0)), Act(ReadValue(RLoad(Element(1))), Act(ReadValue(RLoad(Element(2))),
      Act(Store(Sum(), Element(3)), Act(Set(0, Arith(PlusOp, Val(5, U64), Lit(U64, 1))), Done)))))
  }

  /** The index has not reached the length. */
  function Test(): Cond { Cond([RGet(0)], Rel(LtOp, Val(5, U64), Val(4, U64))) }

  function ComputeDef(): FnDef {
    FnDef("compute", [I32, INTS, INTS, INTS, U64], TVoid,
      Act(Declare(U64, "idx"), Act(Set(0, Lit(U64, 0)), While(Test(), Iteration(), ReturnVoid))))
  }

  // ----- arrays -----

  predicate ArrayAt(m: Mem, p: nat, n: nat) { p < Pow2(64) && p + 4 * n <= Pow2(64) && Mapped(m, p, 4 * n) }

  function At(m: Mem, p: nat, n: nat, i: nat): int
    requires ArrayAt(m, p, n) && i < n
  {
    FieldAt(m, p + 4 * i, I32)
  }

  datatype Job = Job(a: int, b: nat, c: nat, d: nat, n: nat)

  predicate JobOk(m: Mem, j: Job) {
    InRange(I32, j.a) && j.n < Pow2(64) && ArrayAt(m, j.b, j.n) && ArrayAt(m, j.c, j.n) && ArrayAt(m, j.d, j.n)
  }

  /** a * b[i] + c[i], wrapped to 32 bits. */
  function Entry(m: Mem, j: Job, i: nat): int
    requires JobOk(m, j) && i < j.n
  {
    Norm(I32, j.a * At(m, j.b, j.n, i) + At(m, j.c, j.n, i))
  }

  /** One iteration. */
  function AfterIteration(m: Mem, j: Job, i: nat): (r: Mem)
    requires JobOk(m, j) && i < j.n
    ensures r.Keys == m.Keys && JobOk(r, j)
  {
    assert Mapped(m, j.d + 4 * i, 4);
    WriteDomain(m, j.d + 4 * i, 4, PatOf(I32, Entry(m, j, i)));
    WriteLE(m, j.d + 4 * i, 4, PatOf(I32, Entry(m, j, i)))
  }

  /** The iterations from i on: each reads the memory the ones before it left. */
  function From(m: Mem, j: Job, i: nat): (r: Mem)
    requires JobOk(m, j)
    ensures r.Keys == m.Keys
    decreases j.n - i
  {
    if i < j.n then From(AfterIteration(m, j, i), j, i + 1) else m
  }

  // ----- when the result is elementwise -----

  /** No element of the n at p is written, through d, before it is read. */
  predicate Behind(d: nat, p: nat, n: nat) { d <= p || p + 4 * n <= d }

  /** Where the arrays may lie for the loop to be element-wise. A single element is always read first. */
  predicate Clear(b: nat, c: nat, d: nat, n: nat) { n <= 1 || (Behind(d, b, n) && Behind(d, c, n)) }

  lemma SameAt(m: Mem, m': Mem, p: nat, n: nat, k: nat)
    requires ArrayAt(m, p, n) && ArrayAt(m', p, n) && k < n && Agree(m, m', p + 4 * k, 4)
    ensures At(m, p, n, k) == At(m', p, n, k)
  {
    hide Pow2, ReadLE, ValOf, Agree;
    ReadAgree(m, m', p + 4 * k, 4);
  }

  lemma AfterIterationAt(m: Mem, j: Job, i: nat)
    requires JobOk(m, j) && i < j.n
    ensures At(AfterIteration(m, j, i), j.d, j.n, i) == Entry(m, j, i)
    ensures forall x :: x in m && !(j.d + 4 * i <= x < j.d + 4 * i + 4) ==> AfterIteration(m, j, i)[x] == m[x]
  {
    hide Entry, Pat, WriteLE, Pow2, InRange;
    var v := Entry(m, j, i);
    EntryFits(m, j, i);
    WriteDomain(m, j.d + 4 * i, 4, PatOf(I32, v));
    LoadStore(m, j.d + 4 * i, I32, PatOf(I32, v));
    PatVal(I32, v);
  }

  lemma EntryFits(m: Mem, j: Job, i: nat)
    requires JobOk(m, j) && i < j.n
    ensures InRange(I32, Entry(m, j, i)) && PatOf(I32, Entry(m, j, i)) < Pow2(Width(I32))
  {
    NormProps(I32, j.a * At(m, j.b, j.n, i) + At(m, j.c, j.n, i));
  }

  /** A later element is still as it was. */
  lemma Unread(m: Mem, j: Job, i: nat, p: nat, k: nat)
    requires JobOk(m, j) && ArrayAt(m, p, j.n) && Behind(j.d, p, j.n) && i < k < j.n
    ensures ArrayAt(AfterIteration(m, j, i), p, j.n) && At(AfterIteration(m, j, i), p, j.n, k) == At(m, p, j.n, k)
  {
    hide AfterIteration;
    AfterIterationAt(m, j, i);
    SameAt(m, AfterIteration(m, j, i), p, j.n, k);
  }

  /** Every element gets its value from the memory the loop began with, and nothing else changes. */
  lemma {:induction false} Elementwise(m: Mem, j: Job, i: nat)
    requires JobOk(m, j) && Clear(j.b, j.c, j.d, j.n) && i <= j.n
    ensures forall k :: i <= k < j.n ==> At(From(m, j, i), j.d, j.n, k) == Entry(m, j, k)
    ensures forall x :: x in m && !(j.d + 4 * i <= x < j.d + 4 * j.n) ==> From(m, j, i)[x] == m[x]
    decreases j.n - i
  {
    hide AfterIteration, At, Norm, InRange;
    if i < j.n {
      var m1 := AfterIteration(m, j, i);
      AfterIterationAt(m, j, i);
      Elementwise(m1, j, i + 1);
      SameAt(m1, From(m1, j, i + 1), j.d, j.n, i);
      forall k | i < k < j.n
        ensures Entry(m1, j, k) == Entry(m, j, k)
      {
        Unread(m, j, i, j.b, k);
        Unread(m, j, i, j.c, k);
      }
    }
  }

  // ----- running it -----

  function Args(j: Job): seq<SVal> {
    [SVal(I32, j.a), SVal(INTS, j.b), SVal(INTS, j.c), SVal(INTS, j.d), SVal(U64, j.n)]
  }

  function Index(i: nat): seq<Cell> { [Cell(U64, Some(i))] }

  lemma ElementIs(level: nat, env: Env, p: nat, i: nat, n: nat)
    requires level < 5 < |env| && env[level] == SVal(INTS, p) && env[5] == SVal(U64, i)
    requires i < n && p + 4 * n <= Pow2(64)
    ensures Eval(Element(level), env) == Some(p + 4 * i) && TypeOf(Element(level)) == INTS && InRange(U64, i)
  {
    hide Pow2;
    ScaledIsProduct(i, 4);
    ModSmall(p + 4 * i, Pow2(64));
  }

  lemma ElementLoads(level: nat, st: SState, p: nat, i: nat, n: nat)
    requires level < 5 < |st.env| && st.env[level] == SVal(INTS, p) && st.env[5] == SVal(U64, i)
    requires i < n && ArrayAt(st.heap, p, n)
    ensures InRange(I32, At(st.heap, p, n, i))
    ensures Do(ReadValue(RLoad(Element(level))), st) == Some(st.(env := st.env + [SVal(I32, At(st.heap, p, n, i))]))
  {
    hide Element, InRange, Pow2;
    ElementIs(level, st.env, p, i, n);
    ReadMapped(st.heap, p + 4 * i, 4);
    ReadBound(st.heap, p + 4 * i, 4);
    ValInRange(I32, ReadLE(st.heap, p + 4 * i, 4).value);
  }

  lemma ActRuns(src: seq<FnDef>, k: nat, fuel: nat, a: Action, next: Code, st: SState, st1: SState)
    requires Do(a, st) == Some(st1)
    ensures Run(src, k, fuel, Act(a, next), st) == Run(src, k, fuel, next, st1)
  {
    hide Do;
    assert Run(src, k, fuel, Act(a, next), st) == RunAct(src, k, fuel, a, next, st);
  }

  /** Wrapping the product first makes no difference. */
  lemma NormSum(t: Ty, u: int, y: int)
    requires !t.TVoid?
    ensures Norm(t, Norm(t, u) + y) == Norm(t, u + y)
  {
    NormProps(t, u);
    var m := Pow2(Width(t));
    ModAdd(Norm(t, u), y, m);
    ModAdd(u, y, m);
  }

  lemma SumIs(env: Env, a: int, x: int, y: int)
    requires |env| == 8 && env[0] == SVal(I32, a) && env[6] == SVal(I32, x) && env[7] == SVal(I32, y)
    requires InRange(I32, a) && InRange(I32, x) && InRange(I32, y)
    ensures Eval(Sum(), env) == Some(Norm(I32, a * x + y)) && TypeOf(Sum()) == I32
  {
    hide InRange, Norm;
    NormSum(I32, a * x, y);
    assert Eval(Arith(TimesOp, Val(0, I32), Val(6, I32)), env) == Some(Norm(I32, a * x));
  }

  lemma StoreDoes(st: SState, j: Job, i: nat)
    requires JobOk(st.heap, j) && i < j.n
    requires st.env == Args(j) + [SVal(U64, i), SVal(I32, At(st.heap, j.b, j.n, i)),
             SVal(I32, At(st.heap, j.c, j.n, i))]
    requires InRange(I32, At(st.heap, j.b, j.n, i)) && InRange(I32, At(st.heap, j.c, j.n, i))
    ensures Do(Store(Sum(), Element(3)), st) == Some(st.(heap := AfterIteration(st.heap, j, i)))
  {
    hide At, InRange, Sum, Element, Norm, Pow2, WriteLE;
    SumIs(st.env, j.a, At(st.heap, j.b, j.n, i), At(st.heap, j.c, j.n, i));
    ElementIs(3, st.env, j.d, i, j.n);
  }

  lemma NextIndex(st: SState, i: nat)
    requires |st.env| == 8 && st.env[5] == SVal(U64, i) && st.vars == Index(i) && i + 1 < Pow2(64)
    ensures Do(Set(0, Arith(PlusOp, Val(5, U64), Lit(U64, 1))), st) == Some(st.(vars := Index(i + 1)))
  {
    hide Pow2;
    ModSmall(i + 1, Pow2(64));
    assert Index(i)[0 := Cell(U64, Some(i + 1))] == Index(i + 1);
    assert Eval(Arith(PlusOp, Val(5, U64), Lit(U64, 1)), st.env) == Some(i + 1);
  }

  lemma GetDoes(st: SState, i: nat)
    requires st.vars == Index(i)
    ensures Do(ReadValue(RGet(0)), st) == Some(st.(env := st.env + [SVal(U64, i)]))
  {}

  lemma IterationRuns(src: seq<FnDef>, k: nat, fuel: nat, st: SState, j: Job, i: nat)
    requires JobOk(st.heap, j) && i < j.n && st.env == Args(j) && st.vars == Index(i)
    ensures Run(src, k, fuel, Iteration(), st) == Normal(Index(i + 1), AfterIteration(st.heap, j, i))
  {
    hide At, AfterIteration, Do, Element, Sum, InRange, Pow2, ArrayAt, Index;
    var x, y := At(st.heap, j.b, j.n, i), At(st.heap, j.c, j.n, i);
    var st1 := st.(env := Args(j) + [SVal(U64, i)]);
    var st2 := st.(env := st1.env + [SVal(I32, x)]);
    var st3 := st.(env := st2.env + [SVal(I32, y)]);
    var st4 := st3.(heap := AfterIteration(st.heap, j, i));
    GetDoes(st, i);
    ElementLoads(1, st1, j.b, i, j.n);
    ElementLoads(2, st2, j.c, i, j.n);
    StoreDoes(st3, j, i);
    NextIndex(st4, i);
    var set0 := Act(Set(0, Arith(PlusOp, Val(5, U64), Lit(U64, 1))), Done);
    var store := Act(Store(Sum(), Element(3)), set0);
    ActRuns(src, k, fuel, ReadValue(RGet(0)),
        Act(ReadValue(RLoad(Element(1))), Act(ReadValue(RLoad(Element(2))), store)), st, st1);
    ActRuns(src, k, fuel, ReadValue(RLoad(Element(1))), Act(ReadValue(RLoad(Element(2))), store), st1, st2);
    ActRuns(src, k, fuel, ReadValue(RLoad(Element(2))), store, st2, st3);
    ActRuns(src, k, fuel, Store(Sum(), Element(3)), set0, st3, st4);
    ActRuns(src, k, fuel, Set(0, Arith(PlusOp, Val(5, U64), Lit(U64, 1))), Done, st4, st4.(vars := Index(i + 1)));
  }

  lemma TestIs(st: SState, j: Job, i: nat)
    requires st.env == Args(j) && st.vars == Index(i) && i < Pow2(64) && j.n < Pow2(64)
    ensures EvalCond(Test(), st) == Some(i < j.n)
  {
    hide Pow2;
    var st1 := st.(env := st.env + [SVal(U64, i)]);
    GetDoes(st, i);
    assert Test().first[1..] == [];
    assert DoReads(Test().first, st) == DoReads([], st1);
    assert Eval(Test().test, st1.env) == Some(if i < j.n then 1 else 0);
  }

  lemma {:induction false} LoopRuns(src: seq<FnDef>, k: nat, st: SState, j: Job, i: nat)
    requires k < |src| && src[k].ret == TVoid && JobOk(st.heap, j) && i <= j.n && st.env == Args(j) &&
             st.vars == Index(i)
    ensures RunWhile(src, k, j.n - i, Test(), Iteration(), ReturnVoid, st) == Returned(None, From(st.heap, j, i))
    decreases j.n - i
  {
    hide EvalCond, Iteration, AfterIteration, Test, ArrayAt, InRange, Pow2;
    TestIs(st, j, i);
    if i < j.n {
      var fuel := j.n - i - 1;
      var m1 := AfterIteration(st.heap, j, i);
      IterationRuns(src, k, fuel, st, j, i);
      var st1 := Leave(st, Index(i + 1), m1);
      assert Index(i + 1)[..1] == Index(i + 1);
      LoopRuns(src, k, st1, j, i + 1);
      assert RunWhile(src, k, fuel + 1, Test(), Iteration(), ReturnVoid, st) ==
             AfterBody(src, k, fuel + 1, Normal(Index(i + 1), m1), Test(), Iteration(), ReturnVoid, st);
    }
  }

  lemma ComputeRuns(j: Job, heap: Mem)
    requires JobOk(heap, j)
    ensures RunFunction([ComputeDef()], 0, j.n, Args(j), heap) == Returned(None, From(heap, j, 0))
  {
    hide Iteration, Test, JobOk, From, RunWhile;
    var src, st := [ComputeDef()], SState(Args(j), [], heap);
    var loop := While(Test(), Iteration(), ReturnVoid);
    var st1 := st.(vars := [Cell(U64, None)]);
    var st2 := st.(vars := Index(0));
    assert Eval(Lit(U64, 0), st.env) == Some(0);
    assert [] + [Cell(U64, None)] == [Cell(U64, None)];
    assert [Cell(U64, None)][0 := Cell(U64, Some(0))] == Index(0);
    ActRuns(src, 0, j.n, Declare(U64, "idx"), Act(Set(0, Lit(U64, 0)), loop), st, st1);
    ActRuns(src, 0, j.n, Set(0, Lit(U64, 0)), loop, st1, st2);
    LoopRuns(src, 0, st2, j, 0);
    assert Run(src, 0, j.n, loop, st2) == RunWhile(src, 0, j.n, Test(), Iteration(), ReturnVoid, st2);
  }

  // ----- end to end -----

  /** The compiled function halts, having written a * b[k] + c[k] (in 32-bit arithmetic) to every d[k]
      and nothing else, when there is one element at most or d does not begin inside b or c. */
  lemma SoaComputeCorrect(j: Job, heap: Mem, sp: nat, mem: Mem) returns (n: nat)
    requires JobOk(heap, j) && Clear(j.b, j.c, j.d, j.n) && HeapMatch(heap, mem, sp)
    ensures var s := Steps(Compile([ComputeDef()]), n, Start(0, Args(j), sp, mem));
            s.Halted? && s.result == None && ArrayAt(s.mem, j.d, j.n) &&
            (forall k :: 0 <= k < j.n ==> At(s.mem, j.d, j.n, k) == Entry(heap, j, k)) &&
            (forall x :: x in mem && x < sp && !(j.d <= x < j.d + 4 * j.n) ==> x in s.mem && s.mem[x] == mem[x])
  {
    hide Steps, Compile, ComputeDef, At, Entry, RunFunction;
    var src := [ComputeDef()];
    ComputeRuns(j, heap);
    ComputeProgram(j);
    n := RunPreserved(src, Compile(src), 0, j.n, Args(j), heap, sp, mem);
    var s, h := Steps(Compile(src), n, Start(0, Args(j), sp, mem)), From(heap, j, 0);
    Elementwise(heap, j, 0);
    forall k | 0 <= k < j.n
      ensures At(s.mem, j.d, j.n, k) == Entry(heap, j, k)
    {
      SameAt(h, s.mem, j.d, j.n, k);
    }
  }

  lemma ComputeProgram(j: Job)
    requires InRange(I32, j.a) && j.b < Pow2(64) && j.c < Pow2(64) && j.d < Pow2(64) && j.n < Pow2(64)
    ensures ProgramOk([ComputeDef()], Compile([ComputeDef()])) && ParamTypes(Args(j)) == ComputeDef().params &&
            AllInRange(Args(j))
  {
    hide Iteration, Compile;
    IterationLoops();
    assert LoopOk(While(Test(), Iteration(), ReturnVoid), false);
    assert LoopOk(Act(Set(0, Lit(U64, 0)), While(Test(), Iteration(), ReturnVoid)), false);
  }

  lemma IterationLoops()
    ensures LoopOk(Iteration(), true)
  {
    var set0 := Act(Set(0, Arith(PlusOp, Val(5, U64), Lit(U64, 1))), Done);
    assert LoopOk(Act(Store(Sum(), Element(3)), set0), true);
  }
}
