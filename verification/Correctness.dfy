/** Compiler correctness for whole programs: what a run of the compiled program from a function's
    entry can do, for every program, argument list and starting memory. */
module Correctness {
  import opened Types
  import opened Memory
  import opened Source
  import opened Ir
  import opened Agreement
  import opened Preservation

  /** The machine about to run function j on its own stack, which starts at sp. */
  function Start(j: nat, vs: seq<SVal>, sp: nat, mem: Mem): State {
    Running(Push(Enter(j, Pats(vs), sp, 0), Bottom), mem)
  }

  /** A well-typed call from outside: the program's heap lies below the stack. */
  ghost predicate CallReady(src: seq<FnDef>, fns: seq<Fn>, j: nat, vs: seq<SVal>, heap: Mem, sp: nat, mem: Mem) {
    ProgramOk(src, fns) && j < |src| && src[j].params == ParamTypes(vs) && AllInRange(vs) && HeapMatch(heap, mem, sp)
  }

  ghost predicate GoesRight(src: seq<FnDef>, j: nat, vs: seq<SVal>, heap: Mem)
    requires j < |src|
  {
    forall fuel: nat :: !RunFunction(src, j, fuel, vs, heap).Wrong?
  }

  ghost predicate Terminates(src: seq<FnDef>, j: nat, vs: seq<SVal>, heap: Mem)
    requires j < |src|
  {
    exists fuel: nat :: RunFunction(src, j, fuel, vs, heap).Returned?
  }

  ghost predicate Halts(fns: seq<Fn>, s: State) {
    exists n: nat :: Steps(fns, n, s).Halted?
  }

  /** The source returned (v, h): the machine's result is v's pattern, its memory agrees with h
      below the stack and is otherwise untouched there. */
  ghost predicate SameResult(v: Option<SVal>, h: Mem, heap: Mem, sp: nat, mem: Mem, s: State) {
    s.Halted? && s.result == ResultPattern(v) && (v.Some? ==> InRange(v.value.ty, v.value.v)) &&
    h.Keys == heap.Keys && HeapMatch(h, s.mem, sp) && MemKept(mem, s.mem, heap, sp)
  }

  /** Forward: whatever a source run returns, the compiled program returns; and while a source run
      of that much fuel has not finished, neither has the machine after that many steps. */
  lemma RunPreserved(src: seq<FnDef>, fns: seq<Fn>, j: nat, fuel: nat, vs: seq<SVal>, heap: Mem, sp: nat, mem: Mem)
    returns (n: nat)
    requires CallReady(src, fns, j, vs, heap, sp, mem)
    ensures match RunFunction(src, j, fuel, vs, heap)
            case Returned(v, h) => SameResult(v, h, heap, sp, mem, Steps(fns, n, Start(j, vs, sp, mem)))
            case Timeout => n >= fuel && Steps(fns, n, Start(j, vs, sp, mem)).Running?
            case _ => true
  {
    hide Run, HeapMatch, MemKept, ProgramOk, Steps;
    var mem';
    n, mem' := SimFunction(src, fns, j, fuel, vs, heap, sp, 0, Bottom, mem);
  }

  /** A program that does not go wrong is never stuck: every state it reaches runs on or has halted. */
  lemma NeverStuck(src: seq<FnDef>, fns: seq<Fn>, j: nat, vs: seq<SVal>, heap: Mem, sp: nat, mem: Mem, n: nat)
    requires CallReady(src, fns, j, vs, heap, sp, mem) && GoesRight(src, j, vs, heap)
    ensures !Steps(fns, n, Start(j, vs, sp, mem)).Stuck?
  {
    hide ProgramOk, HeapMatch, AllInRange, ParamTypes, SameResult, Start;
    var s := Start(j, vs, sp, mem);
    var m := RunPreserved(src, fns, j, n, vs, heap, sp, mem);
    if Steps(fns, n, s).Stuck? {
      if RunFunction(src, j, n, vs, heap).Timeout? {
        RunningBefore(fns, n, m, s);
      } else {
        HaltedState(src, fns, j, n, vs, heap, sp, mem, m);
        StoppedSame(fns, n, m, s);
      }
      assert false;
    }
  }

  lemma HaltedState(src: seq<FnDef>, fns: seq<Fn>, j: nat, fuel: nat, vs: seq<SVal>, heap: Mem, sp: nat, mem: Mem,
      n: nat)
    requires j < |src| && RunFunction(src, j, fuel, vs, heap).Returned?
    requires var o := RunFunction(src, j, fuel, vs, heap);
             SameResult(o.result, o.heap, heap, sp, mem, Steps(fns, n, Start(j, vs, sp, mem)))
    ensures Steps(fns, n, Start(j, vs, sp, mem)).Halted?
  {}

  lemma StoppedSame(fns: seq<Fn>, m: nat, n: nat, s: State)
    requires !Steps(fns, m, s).Running? && !Steps(fns, n, s).Running?
    ensures Steps(fns, m, s) == Steps(fns, n, s)
  {
    if m <= n {
      StepsAdd(fns, m, n - m, s);
      StepsStopped(fns, n - m, Steps(fns, m, s));
    } else {
      StepsAdd(fns, n, m - n, s);
      StepsStopped(fns, m - n, Steps(fns, n, s));
    }
  }

  /** Divergence is preserved both ways. */
  lemma HaltsIffTerminates(src: seq<FnDef>, fns: seq<Fn>, j: nat, vs: seq<SVal>, heap: Mem, sp: nat, mem: Mem)
    requires CallReady(src, fns, j, vs, heap, sp, mem) && GoesRight(src, j, vs, heap)
    ensures Halts(fns, Start(j, vs, sp, mem)) <==> Terminates(src, j, vs, heap)
  {
    hide ProgramOk, HeapMatch, AllInRange, ParamTypes, SameResult, Start, RunFunction;
    var s := Start(j, vs, sp, mem);
    if Terminates(src, j, vs, heap) {
      var fuel: nat :| RunFunction(src, j, fuel, vs, heap).Returned?;
      var n := RunPreserved(src, fns, j, fuel, vs, heap, sp, mem);
      HaltedState(src, fns, j, fuel, vs, heap, sp, mem, n);
    }
    if Halts(fns, s) {
      var n: nat :| Steps(fns, n, s).Halted?;
      var m := RunPreserved(src, fns, j, n, vs, heap, sp, mem);
      FunctionOutcomes(src, j, n, vs, heap);
      if RunFunction(src, j, n, vs, heap).Timeout? {
        RunningBefore(fns, n, m, s);
        assert false;
      }
    }
  }

  lemma FunctionOutcomes(src: seq<FnDef>, j: nat, fuel: nat, vs: seq<SVal>, heap: Mem)
    requires j < |src|
    ensures var o := RunFunction(src, j, fuel, vs, heap); o.Returned? || o.Timeout? || o.Wrong?
  {}

  /** However the halting run was found, it returned what the source returns. */
  lemma HaltsWithResult(src: seq<FnDef>, fns: seq<Fn>, j: nat, fuel: nat, vs: seq<SVal>, heap: Mem, sp: nat, mem: Mem,
      n: nat)
    requires CallReady(src, fns, j, vs, heap, sp, mem) && RunFunction(src, j, fuel, vs, heap).Returned?
    requires !Steps(fns, n, Start(j, vs, sp, mem)).Running?
    ensures var o := RunFunction(src, j, fuel, vs, heap);
            SameResult(o.result, o.heap, heap, sp, mem, Steps(fns, n, Start(j, vs, sp, mem)))
  {
    hide ProgramOk, HeapMatch, AllInRange, ParamTypes, SameResult, Start, RunFunction;
    var m := RunPreserved(src, fns, j, fuel, vs, heap, sp, mem);
    HaltedState(src, fns, j, fuel, vs, heap, sp, mem, m);
    StoppedSame(fns, n, m, Start(j, vs, sp, mem));
  }

  // ----- fuel -----

  /** Fuel only decides how long to look: once a run finishes, more of it changes nothing. */
  lemma {:induction false} FuelMonotone(src: seq<FnDef>, k: nat, fuel: nat, more: nat, c: Code, st: SState)
    requires fuel <= more && !Run(src, k, fuel, c, st).Timeout?
    ensures Run(src, k, more, c, st) == Run(src, k, fuel, c, st)
    decreases k, fuel, c, 1
  {
    match c
    case Act(a, next) =>
      assert Run(src, k, fuel, c, st) == RunAct(src, k, fuel, a, next, st);
      if Do(a, st).Some? { FuelMonotone(src, k, fuel, more, next, Do(a, st).value); }
    case Call(fn, args, next) => CallFuel(src, k, fuel, more, fn, args, next, st);
    case If(e, t, f, next) =>
      assert Run(src, k, fuel, c, st) == RunIf(src, k, fuel, e, t, f, next, st);
      if EvalTest(e, st.env).Some? {
        var arm := if EvalTest(e, st.env).value then t else f;
        ArmFuel(src, k, fuel, more, c, arm, next, st);
      }
    case IfThen(e, t, next) =>
      assert Run(src, k, fuel, c, st) == RunIfThen(src, k, fuel, e, t, next, st);
      if EvalTest(e, st.env).Some? {
        if EvalTest(e, st.env).value { ArmFuel(src, k, fuel, more, c, t, next, st); }
        else { FuelMonotone(src, k, fuel, more, next, st); }
      }
    case While(cnd, body, next) => WhileFuel(src, k, fuel, more, cnd, body, next, st);
    case _ =>
  }

  lemma {:induction false} ArmFuel(src: seq<FnDef>, k: nat, fuel: nat, more: nat, whole: Code, arm: Code, next: Code,
      st: SState)
    requires fuel <= more && arm < whole && next < whole
    requires !AfterArm(src, k, fuel, Run(src, k, fuel, arm, st), next, st).Timeout?
    ensures AfterArm(src, k, more, Run(src, k, more, arm, st), next, st) ==
            AfterArm(src, k, fuel, Run(src, k, fuel, arm, st), next, st)
    decreases k, fuel, whole, 0
  {
    FuelMonotone(src, k, fuel, more, arm, st);
    var a := Run(src, k, fuel, arm, st);
    if a.Normal? { FuelMonotone(src, k, fuel, more, next, Leave(st, a.vars, a.heap)); }
  }

  lemma {:induction false} CallFuel(src: seq<FnDef>, k: nat, fuel: nat, more: nat, fn: FnRef, args: seq<Expr>,
      next: Code, st: SState)
    requires fuel <= more && !RunCall(src, k, fuel, fn, args, next, st).Timeout?
    ensures RunCall(src, k, more, fn, args, next, st) == RunCall(src, k, fuel, fn, args, next, st)
    decreases k, fuel, Call(fn, args, next), 0
  {
    if EvalArgs(args, st.env).Some? {
      var vs := EvalArgs(args, st.env).value;
      if CallOk(src, k, fn, vs) {
        var body, st0 := src[fn.idx].body, SState(vs, [], st.heap);
        FuelMonotone(src, fn.idx, fuel, more, body, st0);
        var a := Run(src, fn.idx, fuel, body, st0);
        if a.Returned? { FuelMonotone(src, k, fuel, more, next, AfterCall(a.result, a.heap, st)); }
      }
    }
  }

  lemma {:induction false} WhileFuel(src: seq<FnDef>, k: nat, fuel: nat, more: nat, cnd: Cond, body: Code, next: Code,
      st: SState)
    requires fuel <= more && !RunWhile(src, k, fuel, cnd, body, next, st).Timeout?
    ensures RunWhile(src, k, more, cnd, body, next, st) == RunWhile(src, k, fuel, cnd, body, next, st)
    decreases k, fuel, While(cnd, body, next), 0
  {
    hide EvalCond;
    if EvalCond(cnd, st) == Some(false) {
      FuelMonotone(src, k, fuel, more, next, st);
    } else if EvalCond(cnd, st) == Some(true) {
      FuelMonotone(src, k, fuel - 1, more - 1, body, st);
      match Run(src, k, fuel - 1, body, st)
      case Normal(vars, heap) => WhileFuel(src, k, fuel - 1, more - 1, cnd, body, next, Leave(st, vars, heap));
      case Continued(vars, heap) => WhileFuel(src, k, fuel - 1, more - 1, cnd, body, next, Leave(st, vars, heap));
      case Broke(vars, heap) => FuelMonotone(src, k, fuel, more, next, Leave(st, vars, heap));
      case _ =>
    }
  }
}
