/** What the control statements mean to each other, and the two functions the tests make of nothing else. */
module Control {
  import opened Bits
  import opened Types
  import opened Memory
  import opened Source
  import opened Ir
  import opened Lowering
  import opened Agreement
  import opened Correctness
  import Progress
  import opened SoaCompute
  import opened StringComparator

  // ----- if_ -----

  /** An empty second arm might as well not be there. */
  lemma EmptyElse(src: seq<FnDef>, k: nat, fuel: nat, e: Expr, t: Code, next: Code, st: SState)
    ensures Run(src, k, fuel, If(e, t, Done, next), st) == Run(src, k, fuel, IfThen(e, t, next), st)
  {
    hide Eval;
    assert Leave(st, st.vars, st.heap) == st;
    assert Run(src, k, fuel, If(e, t, Done, next), st) == RunIf(src, k, fuel, e, t, Done, next, st);
    assert Run(src, k, fuel, IfThen(e, t, next), st) == RunIfThen(src, k, fuel, e, t, next, st);
    if EvalTest(e, st.env) == Some(false) {
      assert Run(src, k, fuel, Done, st) == Normal(st.vars, st.heap);
    }
  }

  function Not(e: Expr): Expr { Rel(EqOp, e, Lit(TBool, 0)) }

  /** Negating the test exchanges the arms, whatever the test. */
  lemma NotSwapsArms(src: seq<FnDef>, k: nat, fuel: nat, e: Expr, t: Code, f: Code, next: Code, st: SState)
    ensures Run(src, k, fuel, If(Not(e), f, t, next), st) == Run(src, k, fuel, If(e, t, f, next), st)
  {
    NotTest(e, st.env);
    hide EvalTest, Not;
    assert Run(src, k, fuel, If(e, t, f, next), st) == RunIf(src, k, fuel, e, t, f, next, st);
    assert Run(src, k, fuel, If(Not(e), f, t, next), st) == RunIf(src, k, fuel, Not(e), f, t, next, st);
  }

  lemma NotTest(e: Expr, env: Env)
    ensures EvalTest(e, env).None? ==> EvalTest(Not(e), env).None?
    ensures EvalTest(e, env).Some? ==> EvalTest(Not(e), env) == Some(!EvalTest(e, env).value)
  {
    assert Eval(Lit(TBool, 0), env) == Some(0);
  }

  // ----- continue_ and break_ as the last statement of a loop -----

  /** The lambda with one more statement at its end, if control can come there. */
  function Ending(c: Code, exit: Code): Code {
    match c
    case Done => exit
    case Act(a, next) => Act(a, Ending(next, exit))
    case Call(fn, args, next) => Call(fn, args, Ending(next, exit))
    case If(e, t, f, next) => If(e, t, f, Ending(next, exit))
    case IfThen(e, t, next) => IfThen(e, t, Ending(next, exit))
    case While(cnd, body, next) => While(cnd, body, Ending(next, exit))
    case _ => c
  }

  function Exited(o: Outcome, exit: Code): Outcome {
    match o
    case Normal(vars, heap) => if exit.Break? then Broke(vars, heap) else Continued(vars, heap)
    case _ => o
  }

  lemma {:induction false} ExitAtEnd(src: seq<FnDef>, k: nat, fuel: nat, c: Code, exit: Code, st: SState)
    requires exit.Break? || exit.Continue?
    ensures Run(src, k, fuel, Ending(c, exit), st) == Exited(Run(src, k, fuel, c, st), exit)
    decreases k, fuel, c, 1
  {
    hide Do, EvalArgs, Eval, EvalCond;
    match c
    case Act(a, next) =>
      assert Run(src, k, fuel, c, st) == RunAct(src, k, fuel, a, next, st);
      if Do(a, st).Some? { ExitAtEnd(src, k, fuel, next, exit, Do(a, st).value); }
    case Call(fn, args, next) =>
      assert Run(src, k, fuel, c, st) == RunCall(src, k, fuel, fn, args, next, st);
      if EvalArgs(args, st.env).Some? && CallOk(src, k, fn, EvalArgs(args, st.env).value) {
        var o := Run(src, fn.idx, fuel, src[fn.idx].body, SState(EvalArgs(args, st.env).value, [], st.heap));
        if o.Returned? { ExitAtEnd(src, k, fuel, next, exit, AfterCall(o.result, o.heap, st)); }
      }
    case If(e, t, f, next) =>
      assert Run(src, k, fuel, c, st) == RunIf(src, k, fuel, e, t, f, next, st);
      if EvalTest(e, st.env).Some? {
        ExitAfterArm(src, k, fuel, c, if EvalTest(e, st.env).value then t else f, next, exit, st);
      }
    case IfThen(e, t, next) =>
      assert Run(src, k, fuel, c, st) == RunIfThen(src, k, fuel, e, t, next, st);
      if EvalTest(e, st.env) == Some(true) {
        ExitAfterArm(src, k, fuel, c, t, next, exit, st);
      } else if EvalTest(e, st.env) == Some(false) {
        ExitAtEnd(src, k, fuel, next, exit, st);
      }
    case While(cnd, body, next) =>
      assert Run(src, k, fuel, c, st) == RunWhile(src, k, fuel, cnd, body, next, st);
      ExitAfterLoop(src, k, fuel, cnd, body, next, exit, st);
    case _ =>
  }

  lemma {:induction false} ExitAfterArm(src: seq<FnDef>, k: nat, fuel: nat, whole: Code, arm: Code, next: Code,
      exit: Code, st: SState)
    requires (exit.Break? || exit.Continue?) && next < whole
    ensures AfterArm(src, k, fuel, Run(src, k, fuel, arm, st), Ending(next, exit), st) ==
            Exited(AfterArm(src, k, fuel, Run(src, k, fuel, arm, st), next, st), exit)
    decreases k, fuel, whole, 0
  {
    hide Ending, Leave;
    var o := Run(src, k, fuel, arm, st);
    if o.Normal? { ExitAtEnd(src, k, fuel, next, exit, Leave(st, o.vars, o.heap)); }
  }

  lemma {:induction false} ExitAfterLoop(src: seq<FnDef>, k: nat, fuel: nat, cnd: Cond, body: Code, next: Code,
      exit: Code, st: SState)
    requires exit.Break? || exit.Continue?
    ensures RunWhile(src, k, fuel, cnd, body, Ending(next, exit), st) ==
            Exited(RunWhile(src, k, fuel, cnd, body, next, st), exit)
    decreases k, fuel, While(cnd, body, next), 0
  {
    hide EvalCond, Leave, Ending;
    if EvalCond(cnd, st) == Some(false) {
      ExitAtEnd(src, k, fuel, next, exit, st);
    } else if EvalCond(cnd, st) == Some(true) && fuel > 0 {
      ExitAfterBody(src, k, fuel, Run(src, k, fuel - 1, body, st), cnd, body, next, exit, st);
    }
  }

  lemma {:induction false} ExitAfterBody(src: seq<FnDef>, k: nat, fuel: nat, o: Outcome, cnd: Cond, body: Code,
      next: Code, exit: Code, st: SState)
    requires (exit.Break? || exit.Continue?) && fuel > 0 && Scoped(o, |st.vars|)
    ensures AfterBody(src, k, fuel, o, cnd, body, Ending(next, exit), st) ==
            Exited(AfterBody(src, k, fuel, o, cnd, body, next, st), exit)
    decreases k, fuel, While(cnd, body, next), 0, 0
  {
    hide EvalCond, Leave, Ending;
    if o.Normal? || o.Continued? {
      ExitAfterLoop(src, k, fuel - 1, cnd, body, next, exit, Leave(st, o.vars, o.heap));
    } else if o.Broke? {
      ExitAtEnd(src, k, fuel, next, exit, Leave(st, o.vars, o.heap));
    }
  }

  /** A body that ends with continue_ is the body without it. */
  lemma {:induction false} ContinueAtEnd(src: seq<FnDef>, k: nat, fuel: nat, cnd: Cond, body: Code, next: Code,
      st: SState)
    ensures Run(src, k, fuel, While(cnd, Ending(body, Continue), next), st) ==
            Run(src, k, fuel, While(cnd, body, next), st)
    decreases fuel
  {
    hide EvalCond, Ending, Leave;
    var c1, c2 := While(cnd, Ending(body, Continue), next), While(cnd, body, next);
    assert Run(src, k, fuel, c1, st) == RunWhile(src, k, fuel, cnd, Ending(body, Continue), next, st);
    assert Run(src, k, fuel, c2, st) == RunWhile(src, k, fuel, cnd, body, next, st);
    if EvalCond(cnd, st) == Some(true) && fuel > 0 {
      ExitAtEnd(src, k, fuel - 1, body, Continue, st);
      var o := Run(src, k, fuel - 1, body, st);
      var again := Ending(body, Continue);
      assert RunWhile(src, k, fuel, cnd, body, next, st) == AfterBody(src, k, fuel, o, cnd, body, next, st);
      assert RunWhile(src, k, fuel, cnd, again, next, st) ==
             AfterBody(src, k, fuel, Exited(o, Continue), cnd, again, next, st);
      if o.Normal? || o.Continued? {
        var st1 := Leave(st, o.vars, o.heap);
        ContinueAtEnd(src, k, fuel - 1, cnd, body, next, st1);
        assert Run(src, k, fuel - 1, c1, st1) == RunWhile(src, k, fuel - 1, cnd, Ending(body, Continue), next, st1);
        assert Run(src, k, fuel - 1, c2, st1) == RunWhile(src, k, fuel - 1, cnd, body, next, st1);
      }
    }
  }

  /** A loop whose body ends with break_ and leaves it nowhere else is the body once under if_, with one more
      fuel, when the condition reads nothing. */
  lemma BreakAtEnd(src: seq<FnDef>, k: nat, fuel: nat, e: Expr, body: Code, next: Code, st: SState)
    requires LoopOk(body, false) && !Run(src, k, fuel, IfThen(e, body, next), st).Timeout?
    ensures Run(src, k, fuel + 1, While(Cond([], e), Ending(body, Break), next), st) ==
            Run(src, k, fuel, IfThen(e, body, next), st)
  {
    hide Eval, Ending, Leave;
    var c1, c2 := While(Cond([], e), Ending(body, Break), next), IfThen(e, body, next);
    assert EvalCond(Cond([], e), st) == EvalTest(e, st.env);
    hide EvalCond;
    assert Run(src, k, fuel + 1, c1, st) == RunWhile(src, k, fuel + 1, Cond([], e), Ending(body, Break), next, st);
    assert Run(src, k, fuel, c2, st) == RunIfThen(src, k, fuel, e, body, next, st);
    ExitAtEnd(src, k, fuel, body, Break, st);
    Progress.NoEscape(src, k, fuel, body, st);
    if EvalTest(e, st.env) == Some(true) {
      var o := Run(src, k, fuel, body, st);
      assert RunIfThen(src, k, fuel, e, body, next, st) == AfterArm(src, k, fuel, o, next, st);
      assert RunWhile(src, k, fuel + 1, Cond([], e), Ending(body, Break), next, st) ==
             AfterBody(src, k, fuel + 1, Exited(o, Break), Cond([], e), Ending(body, Break), next, st);
      if o.Normal? { FuelMonotone(src, k, fuel, fuel + 1, next, Leave(st, o.vars, o.heap)); }
    } else if EvalTest(e, st.env) == Some(false) {
      FuelMonotone(src, k, fuel, fuel + 1, next, st);
    }
  }

  // ----- the two-armed example -----

  function ChooseDef(): FnDef {
    FnDef("silly_function", [TBool], TBool,
      If(Val(0, TBool), Return(Lit(TBool, 1)), Return(Lit(TBool, 0)), Done))
  }

  /** It halts with its argument, and touches no memory. */
  lemma ChooseCorrect(b: bool, heap: Mem, sp: nat, mem: Mem) returns (n: nat)
    requires HeapMatch(heap, mem, sp)
    ensures var x := if b then 1 else 0;
            var s := Steps(Compile([ChooseDef()]), n, Start(0, [SVal(TBool, x)], sp, mem));
            s.Halted? && s.result == Some(x) && forall a :: a in mem && a < sp ==> a in s.mem && s.mem[a] == mem[a]
  {
    hide Steps, Compile;
    var src, x := [ChooseDef()], if b then 1 else 0;
    ChooseRuns(b, heap);
    n := RunPreserved(src, Compile(src), 0, 0, [SVal(TBool, x)], heap, sp, mem);
  }

  lemma ChooseRuns(b: bool, heap: Mem)
    ensures var x := if b then 1 else 0;
            RunFunction([ChooseDef()], 0, 0, [SVal(TBool, x)], heap) == Returned(Some(SVal(TBool, x)), heap)
  {
    var src, x := [ChooseDef()], if b then 1 else 0;
    var st := SState([SVal(TBool, x)], [], heap);
    assert EvalTest(Val(0, TBool), st.env) == Some(b);
    var arm := Return(Lit(TBool, x));
    assert Run(src, 0, 0, arm, st) == RunReturn(src, 0, Lit(TBool, x), st);
    assert Run(src, 0, 0, ChooseDef().body, st) ==
           RunIf(src, 0, 0, Val(0, TBool), Return(Lit(TBool, 1)), Return(Lit(TBool, 0)), Done, st);
  }

  // ----- the loop example -----

  /** The variable is got anew in the condition, in the body and for the result. */
  function Below(): Cond { Cond([RGet(0)], Rel(LtOp, Val(1, U32), Val(0, U32))) }

  function Increment(): Code {
    Act(ReadValue(RGet(0)), Act(Set(0, Arith(PlusOp, Val(1, U32), Lit(U32, 1))), Done))
  }

  function Result(): Code { Act(ReadValue(RGet(0)), Return(Val(1, U32))) }

  function CountDef(): FnDef {
    FnDef("silly_function2", [U32], U32,
      Act(Declare(U32, "var"), Act(Set(0, Lit(U32, 0)), While(Below(), Increment(), Result()))))
  }

  function Counter(i: int): seq<Cell> { [Cell(U32, Some(i))] }

  lemma IncrementRuns(src: seq<FnDef>, k: nat, fuel: nat, st: SState, i: nat)
    requires |st.env| == 1 && st.vars == Counter(i) && i + 1 < Pow2(32)
    ensures Run(src, k, fuel, Increment(), st) == Normal(Counter(i + 1), st.heap)
  {
    hide Pow2;
    var st1 := st.(env := st.env + [SVal(U32, i)]);
    var set0 := Set(0, Arith(PlusOp, Val(1, U32), Lit(U32, 1)));
    ModSmall(i + 1, Pow2(32));
    assert Eval(Arith(PlusOp, Val(1, U32), Lit(U32, 1)), st1.env) == Some(i + 1);
    assert Counter(i)[0 := Cell(U32, Some(i + 1))] == Counter(i + 1);
    hide Do;
    ActRuns(src, k, fuel, ReadValue(RGet(0)), Act(set0, Done), st, st1);
    ActRuns(src, k, fuel, set0, Done, st1, st1.(vars := Counter(i + 1)));
  }

  lemma BelowIs(st: SState, target: nat, i: nat)
    requires st.env == [SVal(U32, target)] && st.vars == Counter(i) && i < Pow2(32) && target < Pow2(32)
    ensures EvalCond(Below(), st) == Some(i < target)
  {
    hide Pow2;
    var st1 := st.(env := st.env + [SVal(U32, i)]);
    assert Below().first[1..] == [];
    assert DoReads(Below().first, st) == DoReads([], st1);
    assert Eval(Below().test, st1.env) == Some(if i < target then 1 else 0);
  }

  lemma ResultIs(src: seq<FnDef>, k: nat, fuel: nat, st: SState, i: nat)
    requires k < |src| && src[k].ret == U32 && |st.env| == 1 && st.vars == Counter(i) && i < Pow2(32)
    ensures Run(src, k, fuel, Result(), st) == Returned(Some(SVal(U32, i)), st.heap)
  {
    hide Pow2;
    var st1 := st.(env := st.env + [SVal(U32, i)]);
    assert Eval(Val(1, U32), st1.env) == Some(i);
    ActRuns(src, k, fuel, ReadValue(RGet(0)), Return(Val(1, U32)), st, st1);
    assert Run(src, k, fuel, Return(Val(1, U32)), st1) == RunReturn(src, k, Val(1, U32), st1);
  }

  lemma {:induction false} CountLoops(src: seq<FnDef>, k: nat, st: SState, target: nat, i: nat)
    requires k < |src| && src[k].ret == U32 && st.env == [SVal(U32, target)] && st.vars == Counter(i)
    requires i <= target < Pow2(32)
    ensures RunWhile(src, k, target - i, Below(), Increment(), Result(), st) ==
            Returned(Some(SVal(U32, target)), st.heap)
    decreases target - i
  {
    hide EvalCond, Increment, Result, Below, Pow2;
    BelowIs(st, target, i);
    if i < target {
      var fuel := target - i - 1;
      IncrementRuns(src, k, fuel, st, i);
      assert Counter(i + 1)[..1] == Counter(i + 1);
      CountLoops(src, k, Leave(st, Counter(i + 1), st.heap), target, i + 1);
      assert RunWhile(src, k, fuel + 1, Below(), Increment(), Result(), st) ==
             AfterBody(src, k, fuel + 1, Normal(Counter(i + 1), st.heap), Below(), Increment(), Result(), st);
    } else {
      ResultIs(src, k, 0, st, i);
    }
  }

  lemma CountRuns(target: nat, heap: Mem)
    requires target < Pow2(32)
    ensures RunFunction([CountDef()], 0, target, [SVal(U32, target)], heap) ==
            Returned(Some(SVal(U32, target)), heap)
  {
    hide Below, Increment, Result, RunWhile, Pow2;
    var src, st := [CountDef()], SState([SVal(U32, target)], [], heap);
    var loop := While(Below(), Increment(), Result());
    var st1 := st.(vars := [Cell(U32, None)]);
    var st2 := st.(vars := Counter(0));
    assert Eval(Lit(U32, 0), st.env) == Some(0);
    assert [] + [Cell(U32, None)] == [Cell(U32, None)];
    assert [Cell(U32, None)][0 := Cell(U32, Some(0))] == Counter(0);
    ActRuns(src, 0, target, Declare(U32, "var"), Act(Set(0, Lit(U32, 0)), loop), st, st1);
    ActRuns(src, 0, target, Set(0, Lit(U32, 0)), loop, st1, st2);
    CountLoops(src, 0, st2, target, 0);
    assert Run(src, 0, target, loop, st2) == RunWhile(src, 0, target, Below(), Increment(), Result(), st2);
  }

  /** It counts up to its argument and halts with it, however large. */
  lemma CountCorrect(target: nat, heap: Mem, sp: nat, mem: Mem) returns (n: nat)
    requires target < Pow2(32) && HeapMatch(heap, mem, sp)
    ensures var s := Steps(Compile([CountDef()]), n, Start(0, [SVal(U32, target)], sp, mem));
            s.Halted? && s.result == Some(target) &&
            forall a :: a in mem && a < sp ==> a in s.mem && s.mem[a] == mem[a]
  {
    hide Steps, Compile, RunFunction, Pow2;
    var src := [CountDef()];
    CountRuns(target, heap);
    CountProgram(target);
    n := RunPreserved(src, Compile(src), 0, target, [SVal(U32, target)], heap, sp, mem);
  }

  lemma CountProgram(target: nat)
    requires target < Pow2(32)
    ensures ProgramOk([CountDef()], Compile([CountDef()])) && ParamTypes([SVal(U32, target)]) == CountDef().params &&
            AllInRange([SVal(U32, target)])
  {
    hide Compile;
    assert LoopOk(Increment(), true);
    assert LoopOk(While(Below(), Increment(), Result()), false);
  }
}
