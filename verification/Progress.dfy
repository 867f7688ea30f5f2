/** A program that compiles goes wrong only where C++ or LLVM says so: at an undefined division, a variable
    without a value, memory that is not there, or the end of a function that should have returned. */
module Progress {
  import opened Bits
  import opened Types
  import opened Memory
  import opened Source
  import opened Lowering
  import opened Lazy
  import opened Typing
  import opened Agreement
  import Expressions
  import Correctness
  import Ir

  // ----- expressions -----

  lemma SameIntegers(t: Ty)
    ensures Integer(t) <==> IsIntegral(t)
    ensures (t.TInt? && t.signed) == IsSigned(t) && (IsSigned(t) ==> Width(t) == 8 * t.bytes)
  {}

  lemma SameReinterprets(from: Ty, to: Ty)
    requires Reinterprets(from, to)
    ensures BitCastOk(from, to)
  {}

  /** Whatever an expression is worth is a value of its type. */
  lemma {:induction false} EvalInRange(e: Expr, env: Env)
    requires Eval(e, env).Some?
    ensures InRange(TypeOf(e), Eval(e, env).value)
    decreases e
  {
    hide InRange, PatOf, ValOf, Norm, Pow2, Arithmetic, Relation;
    match e
    case Val(_, _) =>
    case Lit(_, _) =>
    case Arith(op, l, r) =>
      EvalInRange(l, env);
      EvalInRange(r, env);
      Expressions.SelectArithCorrect(op, TypeOf(l), Eval(l, env).value, Eval(r, env).value);
    case PtrArith(minus, l, r) => AddressInRange(TypeOf(l), Eval(e, env).value);
    case Rel(_, _, _) => BoolInRange(Eval(e, env).value);
    case Cast(to, e1) => NormProps(to, Eval(e1, env).value);
    case BitCast(to, e1) => PatternInRange(TypeOf(e1), to, Eval(e1, env).value);
  }

  lemma AddressInRange(t: Ty, a: int)
    requires t.TPtr? && 0 <= a < Pow2(64)
    ensures InRange(t, a)
  {}

  lemma BoolInRange(b: int)
    requires b == 0 || b == 1
    ensures InRange(TBool, b)
  {
    assert Pow2(1) == 2;
  }

  lemma PatternInRange(from: Ty, to: Ty, x: int)
    requires BitCastOk(from, to)
    ensures InRange(to, ValOf(to, PatOf(from, x)))
  {
    ValInRange(to, PatOf(from, x));
  }

  lemma DivisionDefined(op: ArithOp, t: Ty, x: int, y: int)
    requires IsIntegral(t) && InRange(t, x) && InRange(t, y)
    ensures Arithmetic(op, t, x, y).None? <==> DivisionFault(op, t, x, y)
  {
    hide InRange, Norm, PatOf, BitAnd, BitOr, BitXor, TDiv, TRem;
    if y != 0 {
      Expressions.QuotientFits(t, x, y);
    }
  }

  /** An expression that compiles has a value of its type, unless it faults. */
  lemma {:induction false} EvalProgress(e: Expr, vals: seq<Ty>, env: Env)
    requires Check(e, vals).Some? && EnvTyped(env, vals)
    ensures TypeOf(e) == Check(e, vals).value && (Eval(e, env).None? <==> ExprFault(e, env))
    ensures !TypeOf(e).TVoid?
    decreases e
  {
    hide InRange, PatOf, ValOf, Norm, Pow2, Arithmetic, Relation, DivisionFault;
    match e
    case Val(_, _) =>
    case Lit(_, _) =>
    case Arith(op, l, r) =>
      EvalProgress(l, vals, env);
      EvalProgress(r, vals, env);
      SameIntegers(TypeOf(l));
      if Eval(l, env).Some? && Eval(r, env).Some? {
        EvalInRange(l, env);
        EvalInRange(r, env);
        DivisionDefined(op, TypeOf(l), Eval(l, env).value, Eval(r, env).value);
      }
    case PtrArith(_, l, r) =>
      EvalProgress(l, vals, env);
      EvalProgress(r, vals, env);
      SameIntegers(TypeOf(r));
    case Rel(_, l, r) =>
      EvalProgress(l, vals, env);
      EvalProgress(r, vals, env);
      SameIntegers(TypeOf(l));
    case Cast(to, e1) =>
      EvalProgress(e1, vals, env);
      SameIntegers(TypeOf(e1));
      SameIntegers(to);
    case BitCast(to, e1) =>
      EvalProgress(e1, vals, env);
      SameReinterprets(TypeOf(e1), to);
  }

  lemma {:induction false} ArgsProgress(args: seq<Expr>, params: seq<Ty>, vals: seq<Ty>, env: Env)
    requires CheckArgs(args, params, vals) && EnvTyped(env, vals)
    ensures EvalArgs(args, env).None? <==> ArgsFault(args, env)
    ensures EvalArgs(args, env).Some? ==>
              ParamTypes(EvalArgs(args, env).value) == params && AllInRange(EvalArgs(args, env).value)
    decreases |args|
  {
    hide Eval, Check, EnvTyped, InRange, ExprFault;
    if args != [] {
      EvalProgress(args[0], vals, env);
      ArgsProgress(args[1..], params[1..], vals, env);
      FaultOfTail(args, env);
      if Eval(args[0], env).Some? {
        EvalInRange(args[0], env);
      }
    }
  }

  lemma FaultOfTail(args: seq<Expr>, env: Env)
    requires args != []
    ensures ArgsFault(args, env) <==> ExprFault(args[0], env) || ArgsFault(args[1..], env)
  {
    hide ExprFault;
    if ArgsFault(args, env) {
      var i :| 0 <= i < |args| && ExprFault(args[i], env);
      if i > 0 {
        assert ExprFault(args[1..][i - 1], env);
      }
    }
    if ArgsFault(args[1..], env) {
      var i :| 0 <= i < |args[1..]| && ExprFault(args[1..][i], env);
      assert ExprFault(args[i + 1], env);
    }
  }

  // ----- memory -----

  lemma {:induction false} ReadSmall(m: Mem, a: nat, n: nat)
    requires ReadLE(m, a, n).Some?
    ensures ReadLE(m, a, n).value < Pow2(8 * n)
    decreases n
  {
    if n > 0 {
      ReadSmall(m, a + 1, n - 1);
      Pow2Add(8, 8 * (n - 1));
      assert Pow2(8) == 256;
    }
  }

  lemma LoadProgress(m: Mem, a: nat, t: Ty)
    requires !t.TVoid?
    ensures LoadTy(m, a, t).None? <==> LoadFault(m, a, t)
    ensures LoadTy(m, a, t).Some? ==> InRange(t, ValOf(t, LoadTy(m, a, t).value))
  {
    hide Pow2, InRange, ValOf;
    ReadMapped(m, a, Size(t));
    if ReadLE(m, a, Size(t)).Some? {
      ReadSmall(m, a, Size(t));
      LoadWidth(m, a, t);
    }
    if LoadTy(m, a, t).Some? {
      ValInRange(t, LoadTy(m, a, t).value);
    }
  }

  lemma LoadWidth(m: Mem, a: nat, t: Ty)
    requires !t.TVoid? && ReadLE(m, a, Size(t)).Some? && ReadLE(m, a, Size(t)).value < Pow2(8 * Size(t))
    ensures ReadLE(m, a, Size(t)).value < Pow2(Width(t)) <==> !(t.TBool? && m[a] > 1)
  {
    if t.TBool? {
      assert Pow2(1) == 2;
      assert ReadLE(m, a, 1) == Some(m[a] + 256 * 0) by {
        assert ReadLE(m, a + 1, 0) == Some(0);
      }
    }
  }

  lemma {:induction false} CompareProgress(m: Mem, p: nat, q: nat, n: nat)
    ensures CompareBytes(m, p, q, n).None? <==> CompareFault(m, p, q, n)
    decreases n
  {
    if n > 0 {
      CompareProgress(m, p + 1, q + 1, n - 1);
      FirstBytes(m, p, q, n);
      if BytesSame(m, p, q, 0) {
        CompareTail(m, p, q, p + 1, q + 1, n);
      }
    }
  }

  lemma FirstBytes(m: Mem, p: nat, q: nat, n: nat)
    requires n > 0
    ensures CompareFault(m, p, q, n) ==> BytesMissing(m, p, q, 0) || BytesSame(m, p, q, 0)
    ensures BytesMissing(m, p, q, 0) ==> CompareFault(m, p, q, n)
  {
    if CompareFault(m, p, q, n) {
      var i :| 0 <= i < n && BytesMissing(m, p, q, i) && forall j :: 0 <= j < i ==> BytesSame(m, p, q, j);
      if i > 0 {
        assert BytesSame(m, p, q, 0);
      }
    }
  }

  lemma CompareTail(m: Mem, p: nat, q: nat, p1: nat, q1: nat, n: nat)
    requires n > 0 && BytesSame(m, p, q, 0) && p1 == p + 1 && q1 == q + 1
    ensures CompareFault(m, p, q, n) <==> CompareFault(m, p1, q1, n - 1)
  {
    if CompareFault(m, p, q, n) {
      var i :| 0 <= i < n && BytesMissing(m, p, q, i) && forall j :: 0 <= j < i ==> BytesSame(m, p, q, j);
      assert BytesMissing(m, p1, q1, i - 1);
      forall j | 0 <= j < i - 1
        ensures BytesSame(m, p1, q1, j)
      {
        assert BytesSame(m, p, q, j + 1);
      }
    }
    if CompareFault(m, p1, q1, n - 1) {
      var i :| 0 <= i < n - 1 && BytesMissing(m, p1, q1, i) && forall j :: 0 <= j < i ==> BytesSame(m, p1, q1, j);
      assert BytesMissing(m, p, q, i + 1);
      forall j | 0 <= j < i + 1
        ensures BytesSame(m, p, q, j)
      {
        if j > 0 {
          assert BytesSame(m, p1, q1, j - 1);
        }
      }
    }
  }

  // ----- actions -----

  lemma ReadProgress(rd: Read, st: SState, vals: seq<Ty>, vars: seq<Ty>)
    requires StateTyped(st, vals, vars) && CheckRead(rd, vals, vars).Some?
    ensures DoRead(rd, st).None? <==> ReadFault(rd, st)
    ensures DoRead(rd, st).Some? ==> StateTyped(DoRead(rd, st).value, vals + [CheckRead(rd, vals, vars).value], vars)
  {
    hide InRange, Check, Eval, LoadTy, LoadFault, ValOf, ExprFault;
    match rd
    case RGet(_) =>
    case RLoad(p) =>
      EvalProgress(p, vals, st.env);
      if Eval(p, st.env).Some? {
        EvalInRange(p, st.env);
        AddressNat(TypeOf(p), Eval(p, st.env).value);
        LoadProgress(st.heap, Eval(p, st.env).value, TypeOf(p).elem);
      }
  }

  lemma AddressNat(t: Ty, a: int)
    requires t.TPtr? && InRange(t, a)
    ensures a >= 0
  {}

  lemma {:induction false} ReadsProgress(rds: seq<Read>, st: SState, vals: seq<Ty>, vars: seq<Ty>)
    requires StateTyped(st, vals, vars) && CheckReads(rds, vals, vars)
    ensures DoReads(rds, st).None? <==> ReadsFault(rds, st)
    ensures DoReads(rds, st).Some? ==> StateTyped(DoReads(rds, st).value, ReadTypes(rds, vals, vars), vars)
    decreases |rds|
  {
    hide StateTyped, DoRead, ReadFault, CheckRead;
    if rds != [] {
      ReadProgress(rds[0], st, vals, vars);
      if DoRead(rds[0], st).Some? {
        ReadsProgress(rds[1..], DoRead(rds[0], st).value, vals + [CheckRead(rds[0], vals, vars).value], vars);
      }
    }
  }

  lemma CondProgress(cnd: Cond, st: SState, vals: seq<Ty>, vars: seq<Ty>)
    requires StateTyped(st, vals, vars) && CheckCond(cnd, vals, vars)
    ensures EvalCond(cnd, st).None? <==> CondFault(cnd, st)
  {
    hide VarsTyped, EnvTyped, DoReads, Eval, Check, ExprFault, ReadsFault;
    ReadsProgress(cnd.first, st, vals, vars);
    if DoReads(cnd.first, st).Some? {
      EvalProgress(cnd.test, ReadTypes(cnd.first, vals, vars), DoReads(cnd.first, st).value.env);
    }
  }

  lemma TestProgress(e: Expr, st: SState, vals: seq<Ty>, vars: seq<Ty>)
    requires StateTyped(st, vals, vars) && Check(e, vals) == Some(TBool)
    ensures EvalTest(e, st.env).None? <==> ExprFault(e, st.env)
  {
    hide EnvTyped, Eval, Check, ExprFault;
    EvalProgress(e, vals, st.env);
  }

  /** An action that compiles can be done, unless it faults, and leaves a state of the right types. */
  lemma ActionProgress(a: Action, st: SState, vals: seq<Ty>, vars: seq<Ty>)
    requires StateTyped(st, vals, vars) && CheckAction(a, vals, vars)
    ensures Do(a, st).None? <==> ActionFault(a, st)
    ensures Do(a, st).Some? ==> StateTyped(Do(a, st).value, ValsAfter(a, vals, vars), VarsAfter(a, vars))
  {
    hide InRange, Check, Eval, ExprFault, StoreFault, CompareFault, ReadFault, DoRead, CheckRead, StoreTy, PatOf,
         CompareBytes, ArgsFault, EvalArgs, MemCmpOk;
    match a
    case ReadValue(rd) => ReadProgress(rd, st, vals, vars);
    case Declare(_, _) =>
    case Set(x, e) =>
      EvalProgress(e, vals, st.env);
      if Eval(e, st.env).Some? {
        EvalInRange(e, st.env);
      }
    case Store(e, p) =>
      EvalProgress(e, vals, st.env);
      EvalProgress(p, vals, st.env);
      if Eval(p, st.env).Some? {
        EvalInRange(p, st.env);
        AddressNat(TypeOf(p), Eval(p, st.env).value);
        StoreProgress(st.heap, Eval(p, st.env).value, TypeOf(e), if Eval(e, st.env).Some?
                      then PatOf(TypeOf(e), Eval(e, st.env).value) else 0);
      }
    case MemCmp(p, q, n) => MemCmpProgress(p, q, n, st, vals, vars);
  }

  lemma StoreProgress(m: Mem, a: nat, t: Ty, v: nat)
    ensures StoreTy(m, a, t, v).None? <==> StoreFault(m, a, t)
  {}

  lemma MemCmpProgress(p: Expr, q: Expr, n: Expr, st: SState, vals: seq<Ty>, vars: seq<Ty>)
    requires StateTyped(st, vals, vars) && CheckAction(MemCmp(p, q, n), vals, vars)
    ensures Do(MemCmp(p, q, n), st).None? <==> ActionFault(MemCmp(p, q, n), st)
    ensures Do(MemCmp(p, q, n), st).Some? ==> StateTyped(Do(MemCmp(p, q, n), st).value, vals + [TInt(4, true)], vars)
  {
    hide InRange, Check, Eval, ExprFault, CompareFault, CompareBytes, ArgsFault, EvalArgs;
    var args, params := [p, q, n], [Check(p, vals).value, Check(q, vals).value, Check(n, vals).value];
    ArgsProgress(args, params, vals, st.env);
    EvalProgress(p, vals, st.env);
    EvalProgress(q, vals, st.env);
    EvalProgress(n, vals, st.env);
    ThreeArgs(p, q, n, st.env);
    if EvalArgs(args, st.env).Some? {
      EvalInRange(p, st.env);
      EvalInRange(q, st.env);
      EvalInRange(n, st.env);
      var x, y, k := Eval(p, st.env).value, Eval(q, st.env).value, Eval(n, st.env).value;
      MemCmpRanges(TypeOf(p), TypeOf(q), TypeOf(n), x, y, k);
      CompareProgress(st.heap, x, y, k);
      if CompareBytes(st.heap, x, y, k).Some? {
        CompareSmall(st.heap, x, y, k);
      }
    }
  }

  lemma ThreeArgs(a: Expr, b: Expr, c: Expr, env: Env)
    ensures EvalArgs([a, b, c], env) ==
            if Eval(a, env).Some? && Eval(b, env).Some? && Eval(c, env).Some?
            then Some([SVal(TypeOf(a), Eval(a, env).value), SVal(TypeOf(b), Eval(b, env).value),
                       SVal(TypeOf(c), Eval(c, env).value)])
            else None
  {
    hide Eval, EvalArgs;
    NoArgs(env);
    ConsArg(c, [], env);
    ConsArg(b, [c], env);
    ConsArg(a, [b, c], env);
    assert [a] + [b, c] == [a, b, c] && [b] + [c] == [b, c] && [c] + [] == [c];
    if Eval(a, env).Some? && Eval(b, env).Some? && Eval(c, env).Some? {
      var x, y, z := SVal(TypeOf(a), Eval(a, env).value), SVal(TypeOf(b), Eval(b, env).value),
          SVal(TypeOf(c), Eval(c, env).value);
      assert [x] + ([y] + ([z] + [])) == [x, y, z];
    }
  }

  lemma NoArgs(env: Env)
    ensures EvalArgs([], env) == Some([])
  {}

  lemma ConsArg(a: Expr, rest: seq<Expr>, env: Env)
    ensures EvalArgs([a] + rest, env) ==
            if Eval(a, env).Some? && EvalArgs(rest, env).Some?
            then Some([SVal(TypeOf(a), Eval(a, env).value)] + EvalArgs(rest, env).value)
            else None
  {
    hide Eval;
    assert ([a] + rest)[1..] == rest;
  }

  lemma MemCmpRanges(s: Ty, t: Ty, u: Ty, x: int, y: int, n: int)
    requires s.TPtr? && t.TPtr? && Integer(u) && !(u.TInt? && u.signed)
    requires InRange(s, x) && InRange(t, y) && InRange(u, n)
    ensures x >= 0 && y >= 0 && n >= 0 && IsIntegral(u) && !IsSigned(u)
  {}

  lemma {:induction false} CompareSmall(m: Mem, p: nat, q: nat, n: nat)
    requires CompareBytes(m, p, q, n).Some?
    ensures InRange(TInt(4, true), CompareBytes(m, p, q, n).value)
    decreases n
  {
    hide Pow2;
    if n > 0 && m[p] == m[q] {
      CompareSmall(m, p + 1, q + 1, n - 1);
    }
  }

  // ----- runs keep the types of variables -----

  lemma ShorterTyped(cells: seq<Cell>, vars: seq<Ty>, t: Ty)
    requires |cells| > |vars| && VarsTyped(cells[..|vars| + 1], vars + [t])
    ensures VarsTyped(cells[..|vars|], vars)
  {
    forall i | 0 <= i < |vars|
      ensures cells[i].ty == vars[i] && !vars[i].TVoid? && (cells[i].val.Some? ==> InRange(vars[i], cells[i].val.value))
    {
      assert cells[..|vars| + 1][i] == cells[i] && (vars + [t])[i] == vars[i];
    }
  }

  lemma ActionKeeps(a: Action, st: SState, vars: seq<Ty>)
    requires VarsTyped(st.vars, vars) && Do(a, st).Some?
    ensures VarsTyped(Do(a, st).value.vars, VarsAfter(a, vars))
  {
    hide InRange, Eval, EvalArgs, CompareBytes, StoreTy, LoadTy;
    if a.Set? {
      EvalInRange(a.e, st.env);
    }
  }

  lemma AllCells(cells: seq<Cell>, vars: seq<Ty>)
    requires VarsTyped(cells, vars)
    ensures |cells| >= |vars| && cells[..|vars|] == cells
  {}

  lemma {:induction false} RunKeeps(src: seq<FnDef>, k: nat, fuel: nat, c: Code, st: SState, vars: seq<Ty>)
    requires k < |src| && VarsTyped(st.vars, vars)
    ensures OutcomeTyped(Run(src, k, fuel, c, st), vars, src[k].ret)
    decreases k, fuel, c, 1
  {
    hide VarsTyped, InRange, Eval, EvalTest, Do, EvalArgs;
    AllCells(st.vars, vars);
    match c
    case Return(e) =>
      if Eval(e, st.env).Some? {
        EvalInRange(e, st.env);
      }
    case Act(a, next) =>
      if Do(a, st).Some? {
        var st1, vars1 := Do(a, st).value, VarsAfter(a, vars);
        ActionKeeps(a, st, vars);
        RunKeeps(src, k, fuel, next, st1, vars1);
        assert Run(src, k, fuel, c, st) == Run(src, k, fuel, next, st1);
        FewerTyped(Run(src, k, fuel, next, st1), a, vars, src[k].ret);
      }
    case Call(fn, args, next) => CallKeeps(src, k, fuel, fn, args, next, st, vars);
    case If(e, t, f, next) =>
      if EvalTest(e, st.env).Some? {
        ArmKeeps(src, k, fuel, c, if EvalTest(e, st.env).value then t else f, next, st, vars);
      }
    case IfThen(e, t, next) =>
      if EvalTest(e, st.env) == Some(true) {
        ArmKeeps(src, k, fuel, c, t, next, st, vars);
      } else if EvalTest(e, st.env) == Some(false) {
        RunKeeps(src, k, fuel, next, st, vars);
      }
    case While(cnd, body, next) => WhileKeeps(src, k, fuel, cnd, body, next, st, vars);
    case _ =>
  }

  lemma FewerTyped(o: Outcome, a: Action, vars: seq<Ty>, ret: Ty)
    requires OutcomeTyped(o, VarsAfter(a, vars), ret)
    ensures OutcomeTyped(o, vars, ret)
  {
    hide VarsTyped;
    if a.Declare? && (o.Normal? || o.Broke? || o.Continued?) {
      ShorterTyped(o.vars, vars, a.ty);
    }
  }

  lemma {:induction false} ArmKeeps(src: seq<FnDef>, k: nat, fuel: nat, whole: Code, arm: Code, next: Code, st: SState,
      vars: seq<Ty>)
    requires k < |src| && arm < whole && next < whole && VarsTyped(st.vars, vars)
    ensures OutcomeTyped(AfterArm(src, k, fuel, Run(src, k, fuel, arm, st), next, st), vars, src[k].ret)
    decreases k, fuel, whole, 0
  {
    hide VarsTyped, InRange;
    RunKeeps(src, k, fuel, arm, st, vars);
    AllCells(st.vars, vars);
    var a := Run(src, k, fuel, arm, st);
    SameCount(st.vars, vars);
    if a.Normal? {
      RunKeeps(src, k, fuel, next, Leave(st, a.vars, a.heap), vars);
    }
  }

  lemma SameCount(cells: seq<Cell>, vars: seq<Ty>)
    requires VarsTyped(cells, vars)
    ensures |cells| == |vars|
  {}

  lemma {:induction false} CallKeeps(src: seq<FnDef>, k: nat, fuel: nat, fn: FnRef, args: seq<Expr>, next: Code,
      st: SState, vars: seq<Ty>)
    requires k < |src| && VarsTyped(st.vars, vars)
    ensures OutcomeTyped(RunCall(src, k, fuel, fn, args, next, st), vars, src[k].ret)
    decreases k, fuel, Call(fn, args, next), 0
  {
    hide VarsTyped, InRange, EvalArgs;
    if EvalArgs(args, st.env).Some? {
      var vs := EvalArgs(args, st.env).value;
      if CallOk(src, k, fn, vs) {
        var a := Run(src, fn.idx, fuel, src[fn.idx].body, SState(vs, [], st.heap));
        if a.Returned? {
          RunKeeps(src, k, fuel, next, AfterCall(a.result, a.heap, st), vars);
        }
      }
    }
  }

  lemma {:induction false} WhileKeeps(src: seq<FnDef>, k: nat, fuel: nat, cnd: Cond, body: Code, next: Code, st: SState,
      vars: seq<Ty>)
    requires k < |src| && VarsTyped(st.vars, vars)
    ensures OutcomeTyped(RunWhile(src, k, fuel, cnd, body, next, st), vars, src[k].ret)
    decreases k, fuel, While(cnd, body, next), 0
  {
    hide VarsTyped, InRange, EvalCond;
    SameCount(st.vars, vars);
    if EvalCond(cnd, st) == Some(false) {
      RunKeeps(src, k, fuel, next, st, vars);
    } else if EvalCond(cnd, st) == Some(true) && fuel > 0 {
      RunKeeps(src, k, fuel - 1, body, st, vars);
      match Run(src, k, fuel - 1, body, st)
      case Normal(cells, heap) => WhileKeeps(src, k, fuel - 1, cnd, body, next, Leave(st, cells, heap), vars);
      case Continued(cells, heap) => WhileKeeps(src, k, fuel - 1, cnd, body, next, Leave(st, cells, heap), vars);
      case Broke(cells, heap) => RunKeeps(src, k, fuel, next, Leave(st, cells, heap), vars);
      case _ =>
    }
  }

  // ----- break_ and continue_ stay in their loop -----

  lemma {:induction false} CheckedLoops(src: seq<FnDef>, k: nat, c: Code, vals: seq<Ty>, vars: seq<Ty>, inLoop: bool)
    requires k < |src| && CheckCode(src, k, c, vals, vars, inLoop)
    ensures LoopOk(c, inLoop)
    decreases c
  {
    hide Check, CheckArgs, CheckAction, CheckCond, CheckRef;
    match c
    case Act(a, next) => CheckedLoops(src, k, next, ValsAfter(a, vals, vars), VarsAfter(a, vars), inLoop);
    case Call(fn, _, next) => CheckedLoops(src, k, next, vals + [fn.ret], vars, inLoop);
    case If(_, t, f, next) =>
      CheckedLoops(src, k, t, vals, vars, inLoop);
      CheckedLoops(src, k, f, vals, vars, inLoop);
      CheckedLoops(src, k, next, vals, vars, inLoop);
    case IfThen(_, t, next) =>
      CheckedLoops(src, k, t, vals, vars, inLoop);
      CheckedLoops(src, k, next, vals, vars, inLoop);
    case While(_, body, next) =>
      CheckedLoops(src, k, body, vals, vars, true);
      CheckedLoops(src, k, next, vals, vars, inLoop);
    case _ =>
  }

  predicate Escapes(o: Outcome) { o.Broke? || o.Continued? }

  lemma {:induction false} NoEscape(src: seq<FnDef>, k: nat, fuel: nat, c: Code, st: SState)
    requires LoopOk(c, false)
    ensures !Escapes(Run(src, k, fuel, c, st))
    decreases k, fuel, c, 1
  {
    hide Do, EvalTest, EvalArgs, Eval;
    match c
    case Act(a, next) =>
      if Do(a, st).Some? {
        NoEscape(src, k, fuel, next, Do(a, st).value);
        assert Run(src, k, fuel, c, st) == Run(src, k, fuel, next, Do(a, st).value);
      }
    case Call(fn, args, next) => CallStays(src, k, fuel, fn, args, next, st);
    case If(e, t, f, next) =>
      if EvalTest(e, st.env).Some? {
        ArmStays(src, k, fuel, c, if EvalTest(e, st.env).value then t else f, next, st);
      }
    case IfThen(e, t, next) =>
      if EvalTest(e, st.env) == Some(true) {
        ArmStays(src, k, fuel, c, t, next, st);
      } else if EvalTest(e, st.env) == Some(false) {
        NoEscape(src, k, fuel, next, st);
      }
    case While(cnd, body, next) => WhileStays(src, k, fuel, cnd, body, next, st);
    case _ =>
  }

  lemma {:induction false} ArmStays(src: seq<FnDef>, k: nat, fuel: nat, whole: Code, arm: Code, next: Code, st: SState)
    requires arm < whole && next < whole && LoopOk(arm, false) && LoopOk(next, false)
    ensures !Escapes(AfterArm(src, k, fuel, Run(src, k, fuel, arm, st), next, st))
    decreases k, fuel, whole, 0
  {
    NoEscape(src, k, fuel, arm, st);
    var a := Run(src, k, fuel, arm, st);
    if a.Normal? {
      NoEscape(src, k, fuel, next, Leave(st, a.vars, a.heap));
    }
  }

  lemma {:induction false} CallStays(src: seq<FnDef>, k: nat, fuel: nat, fn: FnRef, args: seq<Expr>, next: Code,
      st: SState)
    requires LoopOk(next, false)
    ensures !Escapes(RunCall(src, k, fuel, fn, args, next, st))
    decreases k, fuel, Call(fn, args, next), 0
  {
    hide EvalArgs;
    if EvalArgs(args, st.env).Some? && CallOk(src, k, fn, EvalArgs(args, st.env).value) {
      var a := Run(src, fn.idx, fuel, src[fn.idx].body, SState(EvalArgs(args, st.env).value, [], st.heap));
      if a.Returned? {
        NoEscape(src, k, fuel, next, AfterCall(a.result, a.heap, st));
      }
    }
  }

  lemma {:induction false} WhileStays(src: seq<FnDef>, k: nat, fuel: nat, cnd: Cond, body: Code, next: Code, st: SState)
    requires LoopOk(next, false)
    ensures !Escapes(RunWhile(src, k, fuel, cnd, body, next, st))
    decreases k, fuel, While(cnd, body, next), 0
  {
    hide EvalCond, Leave;
    if EvalCond(cnd, st) == Some(false) {
      NoEscape(src, k, fuel, next, st);
    } else if EvalCond(cnd, st) == Some(true) && fuel > 0 {
      match Run(src, k, fuel - 1, body, st)
      case Normal(cells, heap) => WhileStays(src, k, fuel - 1, cnd, body, next, Leave(st, cells, heap));
      case Continued(cells, heap) => WhileStays(src, k, fuel - 1, cnd, body, next, Leave(st, cells, heap));
      case Broke(cells, heap) => NoEscape(src, k, fuel, next, Leave(st, cells, heap));
      case _ =>
    }
  }

  // ----- more fuel, the same moves -----

  lemma NextMore(src: seq<FnDef>, k: nat, fuel: nat, more: nat, p: Point, m: Move)
    requires fuel <= more && Next(src, k, fuel, p, m).Some?
    ensures Next(src, k, more, p, m) == Next(src, k, fuel, p, m)
  {
    hide Run, Lower, EvalArgs, EvalTest, EvalCond, Do, LowerAction, LowerCall;
    match p.c
    case Call(fn, args, _) =>
      var vs := EvalArgs(args, p.st.env).value;
      Correctness.FuelMonotone(src, fn.idx, fuel, more, src[fn.idx].body, SState(vs, [], p.st.heap));
    case If(e, t, f, _) =>
      if m == Over {
        Correctness.FuelMonotone(src, k, fuel, more, if EvalTest(e, p.st.env).value then t else f, p.st);
      }
    case IfThen(e, t, _) =>
      if m == Over && EvalTest(e, p.st.env) == Some(true) {
        Correctness.FuelMonotone(src, k, fuel, more, t, p.st);
      }
    case While(cnd, body, _) =>
      if m != Into && EvalCond(cnd, p.st) == Some(true) {
        Correctness.FuelMonotone(src, k, fuel, more, body, p.st);
      }
    case _ =>
  }

  lemma {:induction false} FollowMore(src: seq<FnDef>, k: nat, fuel: nat, more: nat, p: Point, moves: seq<Move>)
    requires fuel <= more && Follow(src, k, fuel, p, moves).Some?
    ensures Follow(src, k, more, p, moves) == Follow(src, k, fuel, p, moves)
    decreases |moves|
  {
    hide Next;
    if moves != [] {
      NextMore(src, k, fuel, more, p, moves[0]);
      FollowMore(src, k, fuel, more, Next(src, k, fuel, p, moves[0]).value, moves[1..]);
    }
  }

  lemma {:induction false} FaultMore(src: seq<FnDef>, k: nat, fuel: nat, more: nat, p: Point)
    requires fuel <= more && FaultAhead(src, k, fuel, p)
    ensures FaultAhead(src, k, more, p)
    decreases k, 1
  {
    hide Follow, FaultHere;
    var moves :| Follow(src, k, fuel, p, moves).Some? &&
      FaultHere(src, k, fuel, Follow(src, k, fuel, p, moves).value.c, Follow(src, k, fuel, p, moves).value.st);
    var q := Follow(src, k, fuel, p, moves).value;
    FollowMore(src, k, fuel, more, p, moves);
    HereMore(src, k, fuel, more, q.c, q.st);
  }

  lemma EndMore(src: seq<FnDef>, k: nat, fuel: nat, more: nat, p: Point)
    requires fuel <= more && EndAhead(src, k, fuel, p)
    ensures EndAhead(src, k, more, p)
  {
    hide Follow;
    var moves :| Into !in moves && Follow(src, k, fuel, p, moves).Some? && Follow(src, k, fuel, p, moves).value.c.Done?;
    FollowMore(src, k, fuel, more, p, moves);
  }

  lemma {:induction false} HereMore(src: seq<FnDef>, k: nat, fuel: nat, more: nat, c: Code, st: SState)
    requires fuel <= more && FaultHere(src, k, fuel, c, st)
    ensures FaultHere(src, k, more, c, st)
    decreases k, 0
  {
    hide ArgsFault, EvalArgs, FaultAhead, EndAhead, ActionFault, CondFault, ExprFault;
    if c.Call? && !ArgsFault(c.args, st.env) {
      var vs := EvalArgs(c.args, st.env).value;
      var q := Called(src, c.fn.idx, vs, st.heap);
      if FaultAhead(src, c.fn.idx, fuel, q) {
        FaultMore(src, c.fn.idx, fuel, more, q);
      } else {
        EndMore(src, c.fn.idx, fuel, more, q);
      }
    }
  }

  // ----- one move more -----

  lemma FaultNow(src: seq<FnDef>, k: nat, fuel: nat, p: Point)
    requires FaultHere(src, k, fuel, p.c, p.st)
    ensures FaultAhead(src, k, fuel, p)
  {
    hide FaultHere, Next;
    assert Follow(src, k, fuel, p, []) == Some(p);
  }

  lemma FaultAfter(src: seq<FnDef>, k: nat, fuel: nat, p: Point, m: Move)
    requires Next(src, k, fuel, p, m).Some? && FaultAhead(src, k, fuel, Next(src, k, fuel, p, m).value)
    ensures FaultAhead(src, k, fuel, p)
  {
    hide FaultHere, Next;
    var q := Next(src, k, fuel, p, m).value;
    var moves :| Follow(src, k, fuel, q, moves).Some? &&
      FaultHere(src, k, fuel, Follow(src, k, fuel, q, moves).value.c, Follow(src, k, fuel, q, moves).value.st);
    assert ([m] + moves)[1..] == moves;
    assert Follow(src, k, fuel, p, [m] + moves) == Follow(src, k, fuel, q, moves);
  }

  lemma EndNow(src: seq<FnDef>, k: nat, fuel: nat, p: Point)
    requires p.c.Done?
    ensures EndAhead(src, k, fuel, p)
  {
    assert Follow(src, k, fuel, p, []) == Some(p);
  }

  lemma EndAfter(src: seq<FnDef>, k: nat, fuel: nat, p: Point, m: Move)
    requires m != Into && Next(src, k, fuel, p, m).Some? && EndAhead(src, k, fuel, Next(src, k, fuel, p, m).value)
    ensures EndAhead(src, k, fuel, p)
  {
    hide Next;
    var q := Next(src, k, fuel, p, m).value;
    var moves :| Into !in moves && Follow(src, k, fuel, q, moves).Some? && Follow(src, k, fuel, q, moves).value.c.Done?;
    assert ([m] + moves)[1..] == moves;
    assert Follow(src, k, fuel, p, [m] + moves) == Follow(src, k, fuel, q, moves);
  }

  // ----- a lambda that ends has a way to its end -----

  /** Past an if_ whose arm ends. */
  lemma OverIf(src: seq<FnDef>, k: nat, fuel: nat, p: Point)
    requires p.c.If? && EvalTest(p.c.test, p.st.env).Some?
    requires Run(src, k, fuel, if EvalTest(p.c.test, p.st.env).value then p.c.yes else p.c.no, p.st).Normal?
    ensures var q := Next(src, k, fuel, p, Over);
            q.Some? && q.value.c == p.c.next && Run(src, k, fuel, p.c, p.st) == Run(src, k, fuel, q.value.c, q.value.st)
  {
    hide EvalTest, Lower, IfJoin;
    assert Run(src, k, fuel, p.c, p.st) == RunIf(src, k, fuel, p.c.test, p.c.yes, p.c.no, p.c.next, p.st);
  }

  lemma OverIfThen(src: seq<FnDef>, k: nat, fuel: nat, p: Point)
    requires p.c.IfThen? && EvalTest(p.c.test, p.st.env).Some?
    requires EvalTest(p.c.test, p.st.env).value ==> Run(src, k, fuel, p.c.yes, p.st).Normal?
    ensures var q := Next(src, k, fuel, p, Over);
            q.Some? && q.value.c == p.c.next && Run(src, k, fuel, p.c, p.st) == Run(src, k, fuel, q.value.c, q.value.st)
  {
    hide EvalTest, Lower, IfThenHead, IfThenEnd;
    assert Run(src, k, fuel, p.c, p.st) == RunIfThen(src, k, fuel, p.c.test, p.c.yes, p.c.next, p.st);
  }

  lemma OverCall(src: seq<FnDef>, k: nat, fuel: nat, p: Point)
    requires p.c.Call? && EvalArgs(p.c.args, p.st.env).Some?
    requires CallOk(src, k, p.c.fn, EvalArgs(p.c.args, p.st.env).value)
    requires Run(src, p.c.fn.idx, fuel, src[p.c.fn.idx].body,
               SState(EvalArgs(p.c.args, p.st.env).value, [], p.st.heap)).Returned?
    ensures var q := Next(src, k, fuel, p, Over);
            q.Some? && q.value.c == p.c.next && Run(src, k, fuel, p.c, p.st) == Run(src, k, fuel, q.value.c, q.value.st)
  {
    hide EvalArgs, Lower, LowerCall, CallLocals;
    assert Run(src, k, fuel, p.c, p.st) == RunCall(src, k, fuel, p.c.fn, p.c.args, p.c.next, p.st);
  }

  lemma OverAct(src: seq<FnDef>, k: nat, fuel: nat, p: Point)
    requires p.c.Act? && Do(p.c.a, p.st).Some?
    ensures var q := Next(src, k, fuel, p, Over);
            q.Some? && q.value.c == p.c.next && Run(src, k, fuel, p.c, p.st) == Run(src, k, fuel, q.value.c, q.value.st)
  {
    hide Do, Lower, LowerAction, ActionLocals;
    assert Run(src, k, fuel, p.c, p.st) == RunAct(src, k, fuel, p.c.a, p.c.next, p.st);
  }

  /** What must have gone well for a lambda to end. */
  lemma NormalParts(src: seq<FnDef>, k: nat, fuel: nat, p: Point)
    requires Run(src, k, fuel, p.c, p.st).Normal?
    ensures p.c.Act? ==> Do(p.c.a, p.st).Some?
    ensures p.c.Call? ==>
              EvalArgs(p.c.args, p.st.env).Some? && CallOk(src, k, p.c.fn, EvalArgs(p.c.args, p.st.env).value) &&
              Run(src, p.c.fn.idx, fuel, src[p.c.fn.idx].body,
                SState(EvalArgs(p.c.args, p.st.env).value, [], p.st.heap)).Returned?
    ensures p.c.If? ==>
              EvalTest(p.c.test, p.st.env).Some? &&
              Run(src, k, fuel, if EvalTest(p.c.test, p.st.env).value then p.c.yes else p.c.no, p.st).Normal?
    ensures p.c.IfThen? ==>
              EvalTest(p.c.test, p.st.env).Some? &&
              (EvalTest(p.c.test, p.st.env).value ==> Run(src, k, fuel, p.c.yes, p.st).Normal?)
  {
    hide Do, EvalArgs, EvalTest, Leave, AfterCall;
    match p.c
    case Act(a, next) => assert Run(src, k, fuel, p.c, p.st) == RunAct(src, k, fuel, a, next, p.st);
    case Call(fn, args, next) => assert Run(src, k, fuel, p.c, p.st) == RunCall(src, k, fuel, fn, args, next, p.st);
    case If(e, t, f, next) => assert Run(src, k, fuel, p.c, p.st) == RunIf(src, k, fuel, e, t, f, next, p.st);
    case IfThen(e, t, next) => assert Run(src, k, fuel, p.c, p.st) == RunIfThen(src, k, fuel, e, t, next, p.st);
    case _ =>
  }

  lemma {:induction false} EndReached(src: seq<FnDef>, k: nat, fuel: nat, p: Point)
    requires Run(src, k, fuel, p.c, p.st).Normal?
    ensures EndAhead(src, k, fuel, p)
    decreases k, fuel, p.c
  {
    hide EndAhead, Do, EvalTest, EvalArgs, EvalCond, Lower, Next;
    NormalParts(src, k, fuel, p);
    match p.c
    case Done => EndNow(src, k, fuel, p);
    case While(_, _, _) => LoopEndReached(src, k, fuel, p);
    case Act(_, _) => OverAct(src, k, fuel, p); OverEnd(src, k, fuel, p);
    case Call(_, _, _) => OverCall(src, k, fuel, p); OverEnd(src, k, fuel, p);
    case If(_, _, _, _) => OverIf(src, k, fuel, p); OverEnd(src, k, fuel, p);
    case IfThen(_, _, _) => OverIfThen(src, k, fuel, p); OverEnd(src, k, fuel, p);
    case _ =>
  }

  lemma {:induction false} OverEnd(src: seq<FnDef>, k: nat, fuel: nat, p: Point)
    requires Next(src, k, fuel, p, Over).Some? && Next(src, k, fuel, p, Over).value.c < p.c
    requires var q := Next(src, k, fuel, p, Over).value; Run(src, k, fuel, q.c, q.st).Normal?
    ensures EndAhead(src, k, fuel, p)
    decreases k, fuel, p.c, 0
  {
    hide EndAhead, Next, Run;
    EndReached(src, k, fuel, Next(src, k, fuel, p, Over).value);
    EndAfter(src, k, fuel, p, Over);
  }

  /** How a loop goes on. */
  lemma LoopSteps(src: seq<FnDef>, k: nat, fuel: nat, p: Point)
    requires p.c.While? && !Run(src, k, fuel, p.c, p.st).Timeout?
    ensures EvalCond(p.c.cnd, p.st) == Some(false) ==>
              Run(src, k, fuel, p.c, p.st) == Run(src, k, fuel, p.c.next, p.st)
    ensures EvalCond(p.c.cnd, p.st) == Some(true) ==>
              fuel > 0 && !Run(src, k, fuel - 1, p.c.body, p.st).Timeout? &&
              var a := Run(src, k, fuel - 1, p.c.body, p.st);
              Run(src, k, fuel, p.c, p.st) ==
              if a.Normal? || a.Continued? then Run(src, k, fuel - 1, p.c, Leave(p.st, a.vars, a.heap))
              else if a.Broke? then Run(src, k, fuel, p.c.next, Leave(p.st, a.vars, a.heap))
              else a
    ensures EvalCond(p.c.cnd, p.st).None? ==> Run(src, k, fuel, p.c, p.st).Wrong?
  {
    hide EvalCond, Leave;
    var cnd, body, next := p.c.cnd, p.c.body, p.c.next;
    assert Run(src, k, fuel, p.c, p.st) == RunWhile(src, k, fuel, cnd, body, next, p.st);
    if EvalCond(cnd, p.st) == Some(true) && fuel > 0 {
      var a := Run(src, k, fuel - 1, body, p.st);
      if a.Normal? || a.Continued? {
        var st := Leave(p.st, a.vars, a.heap);
        assert Run(src, k, fuel - 1, p.c, st) == RunWhile(src, k, fuel - 1, cnd, body, next, st);
      }
    }
  }

  /** Round a loop, or out of it. */
  lemma LoopMoves(src: seq<FnDef>, k: nat, fuel: nat, p: Point)
    requires p.c.While? && EvalCond(p.c.cnd, p.st).Some?
    ensures EvalCond(p.c.cnd, p.st) == Some(false) ==>
              Next(src, k, fuel, p, Over) ==
              Some(Point(p.c.next, p.ls, p.st, LoopJoin(p.c.cnd, p.c.body, p.ls, p.b), false))
    ensures EvalCond(p.c.cnd, p.st) == Some(true) ==>
              Next(src, k, fuel, p, Into) == Some(Point(p.c.body, p.ls, p.st, WhileHead(p.c.cnd, p.ls, p.b), false)) &&
              var a := Run(src, k, fuel, p.c.body, p.st);
              (a.Broke? ==>
                 Next(src, k, fuel, p, Over) ==
                 Some(Point(p.c.next, p.ls, Leave(p.st, a.vars, a.heap), LoopJoin(p.c.cnd, p.c.body, p.ls, p.b),
                     false))) &&
              (a.Normal? || a.Continued? ==>
                 Next(src, k, fuel, p, Round) == Some(Point(p.c, p.ls, Leave(p.st, a.vars, a.heap), p.b, true)))
  {
    hide EvalCond, Leave, Run, LoopJoin, WhileHead;
  }

  /** A loop is left, or goes round with one less to go. */
  lemma {:induction false} LoopEndReached(src: seq<FnDef>, k: nat, fuel: nat, p: Point)
    requires p.c.While? && Run(src, k, fuel, p.c, p.st).Normal?
    ensures EndAhead(src, k, fuel, p)
    decreases k, fuel, p.c, 1
  {
    hide EndAhead, Lower, Run, Next, Leave, LoopJoin, WhileHead, DoReads, Eval;
    LoopSteps(src, k, fuel, p);
    LoopMoves(src, k, fuel, p);
    if EvalCond(p.c.cnd, p.st) == Some(false) {
      OverEnd(src, k, fuel, p);
    } else {
      Correctness.FuelMonotone(src, k, fuel - 1, fuel, p.c.body, p.st);
      if Run(src, k, fuel, p.c.body, p.st).Broke? {
        OverEnd(src, k, fuel, p);
      } else {
        var q := Next(src, k, fuel, p, Round).value;
        EndReached(src, k, fuel - 1, q);
        EndMore(src, k, fuel - 1, fuel, q);
        EndAfter(src, k, fuel, p, Round);
      }
    }
  }

  // ----- moves keep types -----

  lemma LeaveTyped(st: SState, o: Outcome, vals: seq<Ty>, vars: seq<Ty>, ret: Ty)
    requires StateTyped(st, vals, vars) && OutcomeTyped(o, vars, ret) && (o.Normal? || Escapes(o)) &&
             |o.vars| >= |st.vars|
    ensures StateTyped(Leave(st, o.vars, o.heap), vals, vars)
  {}

  lemma ReturnTyped(st: SState, o: Outcome, vals: seq<Ty>, vars: seq<Ty>, ret: Ty)
    requires StateTyped(st, vals, vars) && OutcomeTyped(o, [], ret) && o.Returned?
    ensures StateTyped(AfterCall(o.result, o.heap, st), vals + [ret], vars)
  {}

  lemma CalledTyped(src: seq<FnDef>, j: nat, vs: seq<SVal>, heap: Mem)
    requires CheckProgram(src) && j < |src| && src[j].params == ParamTypes(vs) && AllInRange(vs)
    ensures PointTyped(src, j, Called(src, j, vs, heap), src[j].params, [], false)
  {}

  /** The callee of a call that compiles. */
  lemma CalleeReady(src: seq<FnDef>, k: nat, fn: FnRef, args: seq<Expr>, st: SState, vals: seq<Ty>, vars: seq<Ty>)
    requires CheckProgram(src) && k < |src| && StateTyped(st, vals, vars)
    requires CheckRef(src, k, fn) && CheckArgs(args, fn.params, vals) && EvalArgs(args, st.env).Some?
    ensures var vs := EvalArgs(args, st.env).value;
            CallOk(src, k, fn, vs) && PointTyped(src, fn.idx, Called(src, fn.idx, vs, st.heap), fn.params, [], false) &&
            LoopOk(src[fn.idx].body, false)
  {
    hide EvalArgs, CheckArgs, CheckCode;
    ArgsProgress(args, fn.params, vals, st.env);
    CalledTyped(src, fn.idx, EvalArgs(args, st.env).value, st.heap);
    CheckedLoops(src, fn.idx, src[fn.idx].body, src[fn.idx].params, [], false);
  }

  /** Wherever a move leads, the program still makes sense there. */
  lemma NextTyped(src: seq<FnDef>, k: nat, fuel: nat, p: Point, m: Move, vals: seq<Ty>, vars: seq<Ty>, inLoop: bool)
    returns (vals': seq<Ty>, vars': seq<Ty>, inLoop': bool)
    requires CheckProgram(src) && PointTyped(src, k, p, vals, vars, inLoop) && Next(src, k, fuel, p, m).Some?
    ensures PointTyped(src, k, Next(src, k, fuel, p, m).value, vals', vars', inLoop')
  {
    hide Run, Lower, EvalArgs, EvalTest, EvalCond, Do, LowerAction, LowerCall, Leave, AfterCall, Check, CheckArgs,
         CheckCond, CheckAction, EnvTyped, OutcomeTyped, IfJoin, ArmStart, LoopJoin, WhileHead, IfThenHead, IfThenEnd;
    vals', vars', inLoop' := vals, vars, inLoop;
    match p.c
    case Act(a, _) =>
      ActionProgress(a, p.st, vals, vars);
      vals', vars' := ValsAfter(a, vals, vars), VarsAfter(a, vars);
    case Call(fn, args, _) =>
      CalleeReady(src, k, fn, args, p.st, vals, vars);
      var st0 := SState(EvalArgs(args, p.st.env).value, [], p.st.heap);
      RunKeeps(src, fn.idx, fuel, src[fn.idx].body, st0, []);
      ReturnTyped(p.st, Run(src, fn.idx, fuel, src[fn.idx].body, st0), vals, vars, fn.ret);
      vals' := vals + [fn.ret];
    case If(e, t, f, _) =>
      if m == Over {
        ArmTyped(src, k, fuel, if EvalTest(e, p.st.env).value then t else f, p.st, vals, vars);
      }
    case IfThen(e, t, _) =>
      if m == Over && EvalTest(e, p.st.env) == Some(true) {
        ArmTyped(src, k, fuel, t, p.st, vals, vars);
      }
    case While(cnd, body, _) =>
      if m == Into {
        inLoop' := true;
      } else if EvalCond(cnd, p.st) == Some(true) {
        ArmTyped(src, k, fuel, body, p.st, vals, vars);
      }
  }

  lemma ArmTyped(src: seq<FnDef>, k: nat, fuel: nat, c: Code, st: SState, vals: seq<Ty>, vars: seq<Ty>)
    requires k < |src| && StateTyped(st, vals, vars)
    ensures var o := Run(src, k, fuel, c, st);
            o.Normal? || Escapes(o) ==> StateTyped(Leave(st, o.vars, o.heap), vals, vars)
  {
    hide Run, EnvTyped, OutcomeTyped, Leave;
    RunKeeps(src, k, fuel, c, st, vars);
    var o := Run(src, k, fuel, c, st);
    if o.Normal? || Escapes(o) {
      LeaveTyped(st, o, vals, vars, src[k].ret);
    }
  }

  // ----- a run that goes wrong comes to a fault -----

  /** What a wrong run of a statement that branches has come to. */
  lemma WrongParts(src: seq<FnDef>, k: nat, fuel: nat, p: Point)
    requires Run(src, k, fuel, p.c, p.st).Wrong?
    ensures p.c.If? && EvalTest(p.c.test, p.st.env).Some? ==>
              var a := Run(src, k, fuel, if EvalTest(p.c.test, p.st.env).value then p.c.yes else p.c.no, p.st);
              a.Wrong? || a.Normal?
    ensures p.c.IfThen? && EvalTest(p.c.test, p.st.env) == Some(true) ==>
              var a := Run(src, k, fuel, p.c.yes, p.st);
              a.Wrong? || a.Normal?
    ensures p.c.Call? && EvalArgs(p.c.args, p.st.env).Some? &&
            CallOk(src, k, p.c.fn, EvalArgs(p.c.args, p.st.env).value) ==>
              !Run(src, p.c.fn.idx, fuel, src[p.c.fn.idx].body,
                SState(EvalArgs(p.c.args, p.st.env).value, [], p.st.heap)).Timeout?
  {
    hide EvalArgs, EvalTest, Leave, AfterCall;
    match p.c
    case Call(fn, args, next) => assert Run(src, k, fuel, p.c, p.st) == RunCall(src, k, fuel, fn, args, next, p.st);
    case If(e, t, f, next) => assert Run(src, k, fuel, p.c, p.st) == RunIf(src, k, fuel, e, t, f, next, p.st);
    case IfThen(e, t, next) => assert Run(src, k, fuel, p.c, p.st) == RunIfThen(src, k, fuel, e, t, next, p.st);
    case _ =>
  }

  lemma {:induction false} Forward(src: seq<FnDef>, k: nat, fuel: nat, p: Point, vals: seq<Ty>, vars: seq<Ty>,
      inLoop: bool)
    requires CheckProgram(src) && PointTyped(src, k, p, vals, vars, inLoop) && Run(src, k, fuel, p.c, p.st).Wrong?
    ensures FaultAhead(src, k, fuel, p)
    decreases k, fuel, p.c, 3
  {
    hide FaultAhead, CheckProgram, Next, Do, EvalTest, EvalArgs, Eval, Check, CheckArgs, CheckCond, CheckAction,
         EnvTyped,
         ActionFault, ExprFault, CondFault, ArgsFault, CallFault, VarsTyped, CheckRef;
    WrongParts(src, k, fuel, p);
    match p.c
    case Return(e) =>
      EvalProgress(e, vals, p.st.env);
      FaultNow(src, k, fuel, p);
    case Act(a, _) =>
      ActionProgress(a, p.st, vals, vars);
      if Do(a, p.st).None? {
        FaultNow(src, k, fuel, p);
      } else {
        OverAct(src, k, fuel, p);
        MoveForward(src, k, fuel, p, Over, vals, vars, inLoop);
      }
    case Call(_, _, _) => CallForward(src, k, fuel, p, vals, vars, inLoop);
    case If(e, t, f, _) =>
      TestProgress(e, p.st, vals, vars);
      if EvalTest(e, p.st.env).None? {
        FaultNow(src, k, fuel, p);
      } else if Run(src, k, fuel, if EvalTest(e, p.st.env).value then t else f, p.st).Wrong? {
        IntoArm(src, k, fuel, p);
        MoveForward(src, k, fuel, p, Into, vals, vars, inLoop);
      } else {
        OverIf(src, k, fuel, p);
        MoveForward(src, k, fuel, p, Over, vals, vars, inLoop);
      }
    case IfThen(e, t, _) =>
      TestProgress(e, p.st, vals, vars);
      if EvalTest(e, p.st.env).None? {
        FaultNow(src, k, fuel, p);
      } else if EvalTest(e, p.st.env).value && Run(src, k, fuel, t, p.st).Wrong? {
        IntoArm(src, k, fuel, p);
        MoveForward(src, k, fuel, p, Into, vals, vars, inLoop);
      } else {
        OverIfThen(src, k, fuel, p);
        MoveForward(src, k, fuel, p, Over, vals, vars, inLoop);
      }
    case While(_, _, _) => LoopForward(src, k, fuel, p, vals, vars, inLoop);
    case _ =>
  }

  lemma IntoArm(src: seq<FnDef>, k: nat, fuel: nat, p: Point)
    requires p.c.If? || (p.c.IfThen? && EvalTest(p.c.test, p.st.env) == Some(true))
    requires EvalTest(p.c.test, p.st.env).Some?
    ensures var q := Next(src, k, fuel, p, Into);
            q.Some? && q.value.c == (if EvalTest(p.c.test, p.st.env).value then p.c.yes else p.c.no) &&
            q.value.st == p.st
  {
    hide EvalTest, Run, ArmStart, IfThenHead, Lower;
  }

  lemma {:induction false} MoveForward(src: seq<FnDef>, k: nat, fuel: nat, p: Point, m: Move, vals: seq<Ty>,
      vars: seq<Ty>, inLoop: bool)
    requires CheckProgram(src) && PointTyped(src, k, p, vals, vars, inLoop) && Next(src, k, fuel, p, m).Some?
    requires var q := Next(src, k, fuel, p, m).value; q.c < p.c && Run(src, k, fuel, q.c, q.st).Wrong?
    ensures FaultAhead(src, k, fuel, p)
    decreases k, fuel, p.c, 1
  {
    hide FaultAhead, CheckProgram, Next, Run, PointTyped;
    var vals', vars', inLoop' := NextTyped(src, k, fuel, p, m, vals, vars, inLoop);
    Forward(src, k, fuel, Next(src, k, fuel, p, m).value, vals', vars', inLoop');
    FaultAfter(src, k, fuel, p, m);
  }

  lemma {:induction false} CallForward(src: seq<FnDef>, k: nat, fuel: nat, p: Point, vals: seq<Ty>, vars: seq<Ty>,
      inLoop: bool)
    requires CheckProgram(src) && PointTyped(src, k, p, vals, vars, inLoop) && Run(src, k, fuel, p.c, p.st).Wrong?
    requires p.c.Call?
    ensures FaultAhead(src, k, fuel, p)
    decreases k, fuel, p.c, 2
  {
    hide FaultAhead, EndAhead, CheckProgram, Next, Run, EvalArgs, Check, CheckArgs, EnvTyped, ArgsFault, VarsTyped;
    var fn, args := p.c.fn, p.c.args;
    ArgsProgress(args, fn.params, vals, p.st.env);
    if EvalArgs(args, p.st.env).None? {
      FaultNow(src, k, fuel, p);
    } else {
      var vs := EvalArgs(args, p.st.env).value;
      CalleeReady(src, k, fn, args, p.st, vals, vars);
      WrongParts(src, k, fuel, p);
      var q := Called(src, fn.idx, vs, p.st.heap);
      NoEscape(src, fn.idx, fuel, q.c, q.st);
      var o := Run(src, fn.idx, fuel, q.c, q.st);
      if o.Returned? {
        OverCall(src, k, fuel, p);
        MoveForward(src, k, fuel, p, Over, vals, vars, inLoop);
      } else {
        if o.Normal? {
          EndReached(src, fn.idx, fuel, q);
        } else {
          Forward(src, fn.idx, fuel, q, fn.params, [], false);
        }
        FaultNow(src, k, fuel, p);
      }
    }
  }

  lemma {:induction false} LoopForward(src: seq<FnDef>, k: nat, fuel: nat, p: Point, vals: seq<Ty>, vars: seq<Ty>,
      inLoop: bool)
    requires CheckProgram(src) && PointTyped(src, k, p, vals, vars, inLoop) && Run(src, k, fuel, p.c, p.st).Wrong?
    requires p.c.While?
    ensures FaultAhead(src, k, fuel, p)
    decreases k, fuel, p.c, 2
  {
    hide FaultAhead, CheckProgram, Next, Run, CheckCond, EnvTyped, VarsTyped, CondFault, DoReads, Eval, Leave, LoopJoin,
         WhileHead, Check;
    var cnd, body := p.c.cnd, p.c.body;
    CondProgress(cnd, p.st, vals, vars);
    if EvalCond(cnd, p.st).None? {
      FaultNow(src, k, fuel, p);
    } else {
      LoopSteps(src, k, fuel, p);
      LoopMoves(src, k, fuel, p);
      if EvalCond(cnd, p.st) == Some(false) {
        MoveForward(src, k, fuel, p, Over, vals, vars, inLoop);
      } else {
        Correctness.FuelMonotone(src, k, fuel - 1, fuel, body, p.st);
        var a := Run(src, k, fuel, body, p.st);
        if a.Broke? {
          MoveForward(src, k, fuel, p, Over, vals, vars, inLoop);
        } else if a.Normal? || a.Continued? {
          RoundForward(src, k, fuel, p, vals, vars, inLoop);
        } else {
          MoveForward(src, k, fuel, p, Into, vals, vars, inLoop);
        }
      }
    }
  }

  lemma {:induction false} RoundForward(src: seq<FnDef>, k: nat, fuel: nat, p: Point, vals: seq<Ty>, vars: seq<Ty>,
      inLoop: bool)
    requires CheckProgram(src) && PointTyped(src, k, p, vals, vars, inLoop) && fuel > 0
    requires Next(src, k, fuel, p, Round).Some?
    requires var q := Next(src, k, fuel, p, Round).value; Run(src, k, fuel - 1, q.c, q.st).Wrong?
    ensures FaultAhead(src, k, fuel, p)
    decreases k, fuel, p.c, 1
  {
    hide FaultAhead, CheckProgram, Next, Run, PointTyped;
    var q := Next(src, k, fuel, p, Round).value;
    var vals', vars', inLoop' := NextTyped(src, k, fuel, p, Round, vals, vars, inLoop);
    Forward(src, k, fuel - 1, q, vals', vars', inLoop');
    FaultMore(src, k, fuel - 1, fuel, q);
    FaultAfter(src, k, fuel, p, Round);
  }

  // ----- a fault that can be come to makes the run go wrong -----

  function Max(a: nat, b: nat): nat { if a < b then b else a }

  /** Past whole statements, and round a loop, nothing of the outcome is lost. */
  lemma TailBack(src: seq<FnDef>, k: nat, fuel: nat, f: nat, p: Point, m: Move) returns (g: nat)
    requires m != Into && Next(src, k, fuel, p, m).Some?
    requires var q := Next(src, k, fuel, p, m).value; !Run(src, k, f, q.c, q.st).Timeout?
    ensures var q := Next(src, k, fuel, p, m).value; Run(src, k, g, p.c, p.st) == Run(src, k, f, q.c, q.st)
  {
    hide EvalTest, EvalArgs, EvalCond, Do, Leave, AfterCall, Lower, LowerAction, LowerCall, IfJoin, ArmStart, LoopJoin,
         WhileHead, IfThenHead, IfThenEnd, Next, Run;
    g := Max(fuel, f) + 1;
    var q := Next(src, k, fuel, p, m).value;
    NextMore(src, k, fuel, g, p, m);
    Correctness.FuelMonotone(src, k, f, g, q.c, q.st);
    if p.c.While? {
      NextMore(src, k, fuel, g - 1, p, m);
      Correctness.FuelMonotone(src, k, f, g - 1, q.c, q.st);
      LoopTail(src, k, g, p, m);
    } else {
      TailMove(src, k, g, p, m);
    }
  }

  lemma TailMove(src: seq<FnDef>, k: nat, g: nat, p: Point, m: Move)
    requires m != Into && !p.c.While? && Next(src, k, g, p, m).Some?
    ensures var q := Next(src, k, g, p, m).value; Run(src, k, g, p.c, p.st) == Run(src, k, g, q.c, q.st)
  {
    hide Run, Next, EvalArgs, Do, CallOk;
    TailParts(src, k, g, p, m);
    match p.c
    case Act(_, _) => OverAct(src, k, g, p);
    case Call(_, _, _) => OverCall(src, k, g, p);
    case If(_, _, _, _) => OverIf(src, k, g, p);
    case IfThen(_, _, _) => OverIfThen(src, k, g, p);
  }

  /** A move past a statement takes that it has gone well. */
  lemma TailParts(src: seq<FnDef>, k: nat, g: nat, p: Point, m: Move)
    requires m != Into && !p.c.While? && Next(src, k, g, p, m).Some?
    ensures m == Over && (p.c.Act? || p.c.Call? || p.c.If? || p.c.IfThen?)
    ensures p.c.Act? ==> Do(p.c.a, p.st).Some?
    ensures p.c.Call? ==>
              EvalArgs(p.c.args, p.st.env).Some? && CallOk(src, k, p.c.fn, EvalArgs(p.c.args, p.st.env).value) &&
              Run(src, p.c.fn.idx, g, src[p.c.fn.idx].body,
                SState(EvalArgs(p.c.args, p.st.env).value, [], p.st.heap)).Returned?
    ensures p.c.If? ==>
              EvalTest(p.c.test, p.st.env).Some? &&
              Run(src, k, g, if EvalTest(p.c.test, p.st.env).value then p.c.yes else p.c.no, p.st).Normal?
    ensures p.c.IfThen? ==>
              EvalTest(p.c.test, p.st.env).Some? &&
              (EvalTest(p.c.test, p.st.env).value ==> Run(src, k, g, p.c.yes, p.st).Normal?)
  {
    hide Run, Eval, EvalArgs, Do, Leave, AfterCall, Lower, LowerAction, LowerCall, IfJoin, ArmStart, IfThenHead,
         IfThenEnd;
  }

  lemma LoopTail(src: seq<FnDef>, k: nat, g: nat, p: Point, m: Move)
    requires m != Into && p.c.While? && g > 0 && Next(src, k, g - 1, p, m).Some?
    ensures var q := Next(src, k, g - 1, p, m).value;
            Run(src, k, g, p.c, p.st) == Run(src, k, if m == Round then g - 1 else g, q.c, q.st)
  {
    hide Leave, Lower, LoopJoin, WhileHead, DoReads, Eval;
    var cnd, body, next := p.c.cnd, p.c.body, p.c.next;
    var q := Next(src, k, g - 1, p, m).value;
    assert Run(src, k, g, p.c, p.st) == RunWhile(src, k, g, cnd, body, next, p.st);
    if m == Round {
      var a := Run(src, k, g - 1, body, p.st);
      assert a.Normal? || a.Continued?;
      assert q.c == p.c && q.st == Leave(p.st, a.vars, a.heap);
      assert Run(src, k, g - 1, q.c, q.st) == RunWhile(src, k, g - 1, cnd, body, next, q.st);
    }
  }

  /** A body that goes wrong takes its statement with it. */
  lemma IntoBack(src: seq<FnDef>, k: nat, fuel: nat, f: nat, p: Point) returns (g: nat)
    requires Next(src, k, fuel, p, Into).Some?
    requires var q := Next(src, k, fuel, p, Into).value; Run(src, k, f, q.c, q.st).Wrong?
    ensures Run(src, k, g, p.c, p.st).Wrong?
  {
    hide Run, Next;
    g := if p.c.While? then f + 1 else f;
    IntoWhat(src, k, fuel, p);
    if p.c.If? {
      IfWrong(src, k, f, p);
    } else if p.c.IfThen? {
      IfThenWrong(src, k, f, p);
    } else {
      LoopWrong(src, k, f + 1, p);
    }
  }

  lemma IntoWhat(src: seq<FnDef>, k: nat, fuel: nat, p: Point)
    requires Next(src, k, fuel, p, Into).Some?
    ensures var q := Next(src, k, fuel, p, Into).value;
            q.st == p.st &&
            if p.c.If? then
              EvalTest(p.c.test, p.st.env).Some? &&
              q.c == if EvalTest(p.c.test, p.st.env).value then p.c.yes else p.c.no
            else if p.c.IfThen? then EvalTest(p.c.test, p.st.env) == Some(true) && q.c == p.c.yes
            else p.c.While? && EvalCond(p.c.cnd, p.st) == Some(true) && q.c == p.c.body
  {
    hide Run, Eval, DoReads, Lower, ArmStart, IfJoin, LoopJoin, WhileHead, IfThenHead, IfThenEnd, EvalArgs, Do;
  }

  lemma IfWrong(src: seq<FnDef>, k: nat, f: nat, p: Point)
    requires p.c.If? && EvalTest(p.c.test, p.st.env).Some?
    requires Run(src, k, f, if EvalTest(p.c.test, p.st.env).value then p.c.yes else p.c.no, p.st).Wrong?
    ensures Run(src, k, f, p.c, p.st).Wrong?
  {
    hide Eval;
    assert Run(src, k, f, p.c, p.st) == RunIf(src, k, f, p.c.test, p.c.yes, p.c.no, p.c.next, p.st);
  }

  lemma IfThenWrong(src: seq<FnDef>, k: nat, f: nat, p: Point)
    requires p.c.IfThen? && EvalTest(p.c.test, p.st.env) == Some(true) && Run(src, k, f, p.c.yes, p.st).Wrong?
    ensures Run(src, k, f, p.c, p.st).Wrong?
  {
    hide Eval;
    assert Run(src, k, f, p.c, p.st) == RunIfThen(src, k, f, p.c.test, p.c.yes, p.c.next, p.st);
  }

  lemma LoopWrong(src: seq<FnDef>, k: nat, g: nat, p: Point)
    requires p.c.While? && EvalCond(p.c.cnd, p.st) == Some(true) && g > 0 && Run(src, k, g - 1, p.c.body, p.st).Wrong?
    ensures Run(src, k, g, p.c, p.st).Wrong?
  {
    hide DoReads, Eval;
    assert Run(src, k, g, p.c, p.st) == RunWhile(src, k, g, p.c.cnd, p.c.body, p.c.next, p.st);
  }

  /** The moves that lead to a function's end make it fall off. */
  lemma {:induction false} EndBack(src: seq<FnDef>, k: nat, fuel: nat, p: Point, moves: seq<Move>) returns (g: nat)
    requires Into !in moves && Follow(src, k, fuel, p, moves).Some? && Follow(src, k, fuel, p, moves).value.c.Done?
    ensures Run(src, k, g, p.c, p.st).Normal?
    decreases |moves|
  {
    hide Next;
    g := 0;
    if moves != [] {
      var q := Next(src, k, fuel, p, moves[0]).value;
      assert forall i :: 0 <= i < |moves[1..]| ==> moves[1..][i] == moves[i + 1];
      var f := EndBack(src, k, fuel, q, moves[1..]);
      g := TailBack(src, k, fuel, f, p, moves[0]);
    }
  }

  lemma {:induction false} FaultBack(src: seq<FnDef>, k: nat, fuel: nat, p: Point, moves: seq<Move>, vals: seq<Ty>,
      vars: seq<Ty>, inLoop: bool) returns (g: nat)
    requires CheckProgram(src) && PointTyped(src, k, p, vals, vars, inLoop) && Follow(src, k, fuel, p, moves).Some?
    requires var q := Follow(src, k, fuel, p, moves).value; FaultHere(src, k, fuel, q.c, q.st)
    ensures Run(src, k, g, p.c, p.st).Wrong?
    decreases k, 1, |moves|
  {
    hide CheckProgram, PointTyped, FaultHere, Next, Run;
    if moves == [] {
      g := HereBack(src, k, fuel, p, vals, vars, inLoop);
    } else {
      var q := Next(src, k, fuel, p, moves[0]).value;
      var vals', vars', inLoop' := NextTyped(src, k, fuel, p, moves[0], vals, vars, inLoop);
      var f := FaultBack(src, k, fuel, q, moves[1..], vals', vars', inLoop');
      if moves[0] == Into {
        g := IntoBack(src, k, fuel, f, p);
      } else {
        g := TailBack(src, k, fuel, f, p, moves[0]);
      }
    }
  }

  /** A statement that cannot be carried out is wrong. */
  lemma {:induction false} HereBack(src: seq<FnDef>, k: nat, fuel: nat, p: Point, vals: seq<Ty>, vars: seq<Ty>,
      inLoop: bool) returns (g: nat)
    requires CheckProgram(src) && PointTyped(src, k, p, vals, vars, inLoop) && FaultHere(src, k, fuel, p.c, p.st)
    ensures Run(src, k, g, p.c, p.st).Wrong?
    decreases k, 0
  {
    hide CheckProgram, Do, EvalTest, EvalArgs, Eval, Check, CheckArgs, CheckCond, CheckAction, EnvTyped,
         ActionFault, ExprFault, CondFault, ArgsFault, CallFault, VarsTyped, CheckRef;
    g := 0;
    match p.c
    case Return(e) => EvalProgress(e, vals, p.st.env);
    case Act(a, _) => ActionProgress(a, p.st, vals, vars);
    case If(e, _, _, _) => TestProgress(e, p.st, vals, vars);
    case IfThen(e, _, _) => TestProgress(e, p.st, vals, vars);
    case While(cnd, _, _) => CondProgress(cnd, p.st, vals, vars);
    case Call(fn, args, _) =>
      ArgsProgress(args, fn.params, vals, p.st.env);
      if EvalArgs(args, p.st.env).Some? {
        CalleeReady(src, k, fn, args, p.st, vals, vars);
        g := CallBack(src, fn.idx, fuel, EvalArgs(args, p.st.env).value, p.st.heap);
      }
  }

  /** A call that comes to a fault, or to the end, has no result. */
  lemma {:induction false} CallBack(src: seq<FnDef>, j: nat, fuel: nat, vs: seq<SVal>, heap: Mem) returns (g: nat)
    requires CheckProgram(src) && j < |src| && CallFault(src, j, fuel, vs, heap)
    requires PointTyped(src, j, Called(src, j, vs, heap), src[j].params, [], false)
    ensures RunFunction(src, j, g, vs, heap).Wrong?
    decreases j, 2
  {
    hide CheckProgram, PointTyped, FaultHere, Follow, Run;
    var p := Called(src, j, vs, heap);
    if FaultAhead(src, j, fuel, p) {
      var moves :| Follow(src, j, fuel, p, moves).Some? &&
        FaultHere(src, j, fuel, Follow(src, j, fuel, p, moves).value.c, Follow(src, j, fuel, p, moves).value.st);
      g := FaultBack(src, j, fuel, p, moves, src[j].params, [], false);
    } else {
      var moves :| Into !in moves && Follow(src, j, fuel, p, moves).Some? &&
      Follow(src, j, fuel, p, moves).value.c.Done?;
      g := EndBack(src, j, fuel, p, moves);
    }
  }

  // ----- theorems -----

  /** A call of a program that compiles goes wrong, with enough fuel to see it, exactly when some moves lead
      from its start to a statement that faults, in it or in a function it calls, or to the end of a
      function without a return. */
  lemma GoesRightIff(src: seq<FnDef>, j: nat, vs: seq<SVal>, heap: Mem)
    requires CheckProgram(src) && j < |src| && src[j].params == ParamTypes(vs) && AllInRange(vs)
    ensures Correctness.GoesRight(src, j, vs, heap) <==> forall fuel: nat :: !CallFault(src, j, fuel, vs, heap)
  {
    hide CallFault, RunFunction;
    CalledTyped(src, j, vs, heap);
    if fuel: nat :| CallFault(src, j, fuel, vs, heap) {
      var g := CallBack(src, j, fuel, vs, heap);
    }
    if fuel: nat :| RunFunction(src, j, fuel, vs, heap).Wrong? {
      CallGoesWrong(src, j, fuel, vs, heap);
    }
  }

  lemma CallGoesWrong(src: seq<FnDef>, j: nat, fuel: nat, vs: seq<SVal>, heap: Mem)
    requires CheckProgram(src) && j < |src| && src[j].params == ParamTypes(vs) && AllInRange(vs)
    requires RunFunction(src, j, fuel, vs, heap).Wrong?
    ensures CallFault(src, j, fuel, vs, heap)
  {
    hide FaultAhead, EndAhead, Run, CheckCode;
    var p := Called(src, j, vs, heap);
    CalledTyped(src, j, vs, heap);
    CheckedLoops(src, j, src[j].body, src[j].params, [], false);
    NoEscape(src, j, fuel, p.c, p.st);
    if Run(src, j, fuel, p.c, p.st).Normal? {
      EndReached(src, j, fuel, p);
    } else {
      Forward(src, j, fuel, p, src[j].params, [], false);
    }
  }

  /** And such a program, compiled, is never stuck. */
  lemma FaultFreeNeverStuck(src: seq<FnDef>, fns: seq<Ir.Fn>, j: nat, vs: seq<SVal>, heap: Mem, sp: nat, mem: Mem,
      n: nat)
    requires CheckProgram(src) && Correctness.CallReady(src, fns, j, vs, heap, sp, mem)
    requires forall fuel: nat :: !CallFault(src, j, fuel, vs, heap)
    ensures !Ir.Steps(fns, n, Correctness.Start(j, vs, sp, mem)).Stuck?
  {
    hide CheckProgram, CallFault, HeapMatch;
    GoesRightIff(src, j, vs, heap);
    Correctness.NeverStuck(src, fns, j, vs, heap, sp, mem, n);
  }
}
