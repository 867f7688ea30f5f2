/** What the C++ compiler accepts, and what can still go wrong when an accepted program runs: the two are
    told apart here, where the meaning of a program lumps them together as Wrong. */
module Typing {
  import opened Bits
  import opened Types
  import opened Memory
  import opened Source
  import opened Lowering
  import opened Lazy

  // ----- what compiles -----

  /** std::is_integral */
  predicate Integer(t: Ty) {
    match t
    case TBool => true
    case TInt(_, _) => true
    case _ => false
  }

  /** bit_cast: values of one size, both pointers or neither. LLVM does not reinterpret an i1 as anything else. */
  predicate Reinterprets(from: Ty, to: Ty) {
    !from.TVoid? && !to.TVoid? && from.TPtr? == to.TPtr? && from.TBool? == to.TBool? && Size(from) == Size(to)
  }

  /** value_type of an expression over values of these types, if it has one. */
  function Check(e: Expr, vals: seq<Ty>): Option<Ty> {
    match e
    case Val(i, ty) => if i < |vals| && vals[i] == ty && !ty.TVoid? then Some(ty) else None
    case Lit(ty, n) => if Integer(ty) && InRange(ty, n) then Some(ty) else None
    case Arith(_, l, r) =>
      (match (Check(l, vals), Check(r, vals))
       case (Some(a), Some(b)) => if a == b && Integer(a) then Some(a) else None
       case _ => None)
    case PtrArith(_, l, r) =>
      (match (Check(l, vals), Check(r, vals))
       case (Some(TPtr(a)), Some(b)) => if !a.TVoid? && Integer(b) && Size(b) <= 8 then Some(TPtr(a)) else None
       case _ => None)
    case Rel(_, l, r) =>
      (match (Check(l, vals), Check(r, vals))
       case (Some(a), Some(b)) => if a == b && Integer(a) then Some(TBool) else None
       case _ => None)
    case Cast(to, e1) =>
      (match Check(e1, vals)
       case Some(a) => if Integer(a) && Integer(to) then Some(to) else None
       case None => None)
    case BitCast(to, e1) =>
      (match Check(e1, vals)
       case Some(a) => if Reinterprets(a, to) then Some(to) else None
       case None => None)
  }

  predicate CheckArgs(args: seq<Expr>, params: seq<Ty>, vals: seq<Ty>) {
    |args| == |params| && forall i :: 0 <= i < |args| ==> Check(args[i], vals) == Some(params[i])
  }

  /** The type a read gives. */
  function CheckRead(rd: Read, vals: seq<Ty>, vars: seq<Ty>): Option<Ty> {
    match rd
    case RGet(x) => if x < |vars| then Some(vars[x]) else None
    case RLoad(p) =>
      (match Check(p, vals)
       case Some(TPtr(t)) => if t.TVoid? then None else Some(t)
       case _ => None)
  }

  predicate CheckAction(a: Action, vals: seq<Ty>, vars: seq<Ty>) {
    match a
    case ReadValue(rd) => CheckRead(rd, vals, vars).Some?
    case Declare(ty, _) => !ty.TVoid?
    case Set(x, e) => x < |vars| && Check(e, vals) == Some(vars[x])
    case Store(e, p) => Check(e, vals).Some? && Check(p, vals) == Some(TPtr(Check(e, vals).value))
    case MemCmp(p, q, n) =>
      (match (Check(p, vals), Check(q, vals), Check(n, vals))
       case (Some(TPtr(_)), Some(TPtr(_)), Some(t)) => Integer(t) && !(t.TInt? && t.signed)
       case _ => false)
  }

  function ValsAfter(a: Action, vals: seq<Ty>, vars: seq<Ty>): seq<Ty>
    requires CheckAction(a, vals, vars)
  {
    match a
    case ReadValue(rd) => vals + [CheckRead(rd, vals, vars).value]
    case MemCmp(_, _, _) => vals + [TInt(4, true)]
    case _ => vals
  }

  function VarsAfter(a: Action, vars: seq<Ty>): seq<Ty> { if a.Declare? then vars + [a.ty] else vars }

  predicate CheckReads(rds: seq<Read>, vals: seq<Ty>, vars: seq<Ty>)
    decreases |rds|
  {
    rds == [] ||
    (CheckRead(rds[0], vals, vars).Some? && CheckReads(rds[1..], vals + [CheckRead(rds[0], vals, vars).value], vars))
  }

  function ReadTypes(rds: seq<Read>, vals: seq<Ty>, vars: seq<Ty>): seq<Ty>
    requires CheckReads(rds, vals, vars)
    decreases |rds|
  {
    if rds == [] then vals else ReadTypes(rds[1..], vals + [CheckRead(rds[0], vals, vars).value], vars)
  }

  predicate CheckCond(cnd: Cond, vals: seq<Ty>, vars: seq<Ty>) {
    CheckReads(cnd.first, vals, vars) && Check(cnd.test, ReadTypes(cnd.first, vals, vars)) == Some(TBool)
  }

  /** A function_ref is to be had only of a function created earlier, and has its type. */
  predicate CheckRef(src: seq<FnDef>, k: nat, fn: FnRef) {
    fn.idx < k && fn.idx < |src| && fn.params == src[fn.idx].params && fn.ret == src[fn.idx].ret
  }

  /** A lambda in the body of function k, with values and variables of these types in scope. */
  predicate CheckCode(src: seq<FnDef>, k: nat, c: Code, vals: seq<Ty>, vars: seq<Ty>, inLoop: bool)
    requires k < |src|
    decreases c
  {
    match c
    case Done => true
    case Break => inLoop
    case Continue => inLoop
    case Return(e) => Check(e, vals) == Some(src[k].ret)
    case ReturnVoid => src[k].ret.TVoid?
    case Act(a, next) =>
      CheckAction(a, vals, vars) && CheckCode(src, k, next, ValsAfter(a, vals, vars), VarsAfter(a, vars), inLoop)
    case Call(fn, args, next) =>
      CheckRef(src, k, fn) && CheckArgs(args, fn.params, vals) &&
      CheckCode(src, k, next, vals + [fn.ret], vars, inLoop)
    case If(e, t, f, next) =>
      Check(e, vals) == Some(TBool) && CheckCode(src, k, t, vals, vars, inLoop) &&
      CheckCode(src, k, f, vals, vars, inLoop) && CheckCode(src, k, next, vals, vars, inLoop)
    case IfThen(e, t, next) =>
      Check(e, vals) == Some(TBool) && CheckCode(src, k, t, vals, vars, inLoop) &&
      CheckCode(src, k, next, vals, vars, inLoop)
    case While(cnd, body, next) =>
      CheckCond(cnd, vals, vars) && CheckCode(src, k, body, vals, vars, true) &&
      CheckCode(src, k, next, vals, vars, inLoop)
  }

  predicate CheckProgram(src: seq<FnDef>) {
    forall k :: 0 <= k < |src| ==> CheckCode(src, k, src[k].body, src[k].params, [], false)
  }

  // ----- states of the right types -----

  predicate EnvTyped(env: Env, vals: seq<Ty>) {
    |env| == |vals| &&
    forall i :: 0 <= i < |env| ==> env[i].ty == vals[i] && (env[i].ty.TVoid? || InRange(env[i].ty, env[i].v))
  }

  predicate VarsTyped(cells: seq<Cell>, vars: seq<Ty>) {
    |cells| == |vars| &&
    forall i :: 0 <= i < |cells| ==>
      cells[i].ty == vars[i] && !vars[i].TVoid? && (cells[i].val.Some? ==> InRange(vars[i], cells[i].val.value))
  }

  predicate StateTyped(st: SState, vals: seq<Ty>, vars: seq<Ty>) {
    EnvTyped(st.env, vals) && VarsTyped(st.vars, vars)
  }

  /** What a lambda that began with these variables leaves in them, and what it returns. */
  predicate OutcomeTyped(o: Outcome, vars: seq<Ty>, ret: Ty) {
    match o
    case Normal(cells, _) => |cells| >= |vars| && VarsTyped(cells[..|vars|], vars)
    case Broke(cells, _) => |cells| >= |vars| && VarsTyped(cells[..|vars|], vars)
    case Continued(cells, _) => |cells| >= |vars| && VarsTyped(cells[..|vars|], vars)
    case Returned(Some(v), _) => v.ty == ret && InRange(v.ty, v.v)
    case Returned(None, _) => ret.TVoid?
    case _ => true
  }

  ghost predicate PointTyped(src: seq<FnDef>, k: nat, p: Point, vals: seq<Ty>, vars: seq<Ty>, inLoop: bool) {
    k < |src| && CheckCode(src, k, p.c, vals, vars, inLoop) && StateTyped(p.st, vals, vars)
  }

  // ----- what goes wrong -----

  /** Division by zero, and the signed quotient that does not fit. */
  predicate DivisionFault(op: ArithOp, t: Ty, x: int, y: int) {
    (op.DivOp? || op.ModOp?) && (y == 0 || (t.TInt? && t.signed && x == -Pow2(8 * t.bytes - 1) && y == -1))
  }

  /** An expression faults only in a division, whose operands have values. */
  predicate ExprFault(e: Expr, env: Env) {
    match e
    case Val(_, _) => false
    case Lit(_, _) => false
    case Arith(op, l, r) =>
      ExprFault(l, env) || ExprFault(r, env) ||
      (Eval(l, env).Some? && Eval(r, env).Some? &&
       DivisionFault(op, TypeOf(l), Eval(l, env).value, Eval(r, env).value))
    case PtrArith(_, l, r) => ExprFault(l, env) || ExprFault(r, env)
    case Rel(_, l, r) => ExprFault(l, env) || ExprFault(r, env)
    case Cast(_, e1) => ExprFault(e1, env)
    case BitCast(_, e1) => ExprFault(e1, env)
  }

  predicate ArgsFault(args: seq<Expr>, env: Env) { exists i :: 0 <= i < |args| && ExprFault(args[i], env) }

  /** Some byte is not there, or the one byte of a bool is neither 0 nor 1. */
  predicate LoadFault(m: Mem, a: int, t: Ty) {
    (exists i :: a <= i < a + Size(t) && i !in m) || (t.TBool? && a in m && m[a] > 1)
  }

  predicate StoreFault(m: Mem, a: int, t: Ty) { exists i :: a <= i < a + Size(t) && i !in m }

  predicate BytesMissing(m: Mem, p: int, q: int, i: int) { p + i !in m || q + i !in m }

  predicate BytesSame(m: Mem, p: int, q: int, i: int) { p + i in m && q + i in m && m[p + i] == m[q + i] }

  /** memcmp comes to a byte that is not there before it has found a difference. */
  predicate CompareFault(m: Mem, p: int, q: int, n: int) {
    exists i :: 0 <= i < n && BytesMissing(m, p, q, i) && forall j :: 0 <= j < i ==> BytesSame(m, p, q, j)
  }

  predicate ReadFault(rd: Read, st: SState) {
    match rd
    case RGet(x) => x < |st.vars| && st.vars[x].val.None?
    case RLoad(p) =>
      ExprFault(p, st.env) ||
      (Eval(p, st.env).Some? && TypeOf(p).TPtr? && LoadFault(st.heap, Eval(p, st.env).value, TypeOf(p).elem))
  }

  predicate ReadsFault(rds: seq<Read>, st: SState)
    decreases |rds|
  {
    rds != [] &&
    (ReadFault(rds[0], st) || (DoRead(rds[0], st).Some? && ReadsFault(rds[1..], DoRead(rds[0], st).value)))
  }

  predicate CondFault(cnd: Cond, st: SState) {
    ReadsFault(cnd.first, st) ||
    (DoReads(cnd.first, st).Some? && ExprFault(cnd.test, DoReads(cnd.first, st).value.env))
  }

  predicate ActionFault(a: Action, st: SState) {
    match a
    case ReadValue(rd) => ReadFault(rd, st)
    case Declare(_, _) => false
    case Set(_, e) => ExprFault(e, st.env)
    case Store(e, p) =>
      ExprFault(e, st.env) || ExprFault(p, st.env) ||
      (Eval(p, st.env).Some? && StoreFault(st.heap, Eval(p, st.env).value, TypeOf(e)))
    case MemCmp(p, q, n) =>
      ArgsFault([p, q, n], st.env) ||
      (Eval(p, st.env).Some? && Eval(q, st.env).Some? && Eval(n, st.env).Some? &&
       CompareFault(st.heap, Eval(p, st.env).value, Eval(q, st.env).value, Eval(n, st.env).value))
  }

  /** Where a call of function j starts. */
  function Called(src: seq<FnDef>, j: nat, vs: seq<SVal>, heap: Mem): Point
    requires j < |src|
  {
    Point(src[j].body, Params(|src[j].params|), SState(vs, [], heap), BeginFunction(src[j], Before(src, j)), false)
  }

  /** The statement at hand cannot be carried out. */
  ghost predicate FaultHere(src: seq<FnDef>, k: nat, fuel: nat, c: Code, st: SState)
    decreases k, 0
  {
    match c
    case Act(a, _) => ActionFault(a, st)
    case Call(fn, args, _) =>
      ArgsFault(args, st.env) ||
      (fn.idx < k && fn.idx < |src| && EvalArgs(args, st.env).Some? &&
       CallFault(src, fn.idx, fuel, EvalArgs(args, st.env).value, st.heap))
    case If(e, _, _, _) => ExprFault(e, st.env)
    case IfThen(e, _, _) => ExprFault(e, st.env)
    case While(cnd, _, _) => CondFault(cnd, st)
    case Return(e) => ExprFault(e, st.env)
    case _ => false
  }

  /** From p some moves lead to a statement that cannot be carried out. */
  ghost predicate FaultAhead(src: seq<FnDef>, k: nat, fuel: nat, p: Point)
    decreases k, 1
  {
    exists moves ::
      Follow(src, k, fuel, p, moves).Some? &&
      FaultHere(src, k, fuel, Follow(src, k, fuel, p, moves).value.c, Follow(src, k, fuel, p, moves).value.st)
  }

  /** From p, past whole statements, control comes to the end of p's lambda. */
  ghost predicate EndAhead(src: seq<FnDef>, k: nat, fuel: nat, p: Point) {
    exists moves ::
      Into !in moves && Follow(src, k, fuel, p, moves).Some? && Follow(src, k, fuel, p, moves).value.c.Done?
  }

  /** A call comes to a fault, or to the end of the function without a return. */
  ghost predicate CallFault(src: seq<FnDef>, j: nat, fuel: nat, vs: seq<SVal>, heap: Mem)
    requires j < |src|
    decreases j, 2
  {
    FaultAhead(src, j, fuel, Called(src, j, vs, heap)) || EndAhead(src, j, fuel, Called(src, j, vs, heap))
  }
}
