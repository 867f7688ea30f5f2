/** The language a user of the library writes in: nested C++ lambdas, as a syntax tree,
    and what a program in it means.

    A C++ local of type value<T> or variable<T> is named by its level, that is, by how many
    values (variables) were already in scope when it was introduced; leaving a lambda
    discards the levels it added. A lambda body is a chain of statements; break_, continue_
    and return_ end the chain, because the builder supports nothing after them. */
module Source {
  import opened Bits
  import opened Types
  import opened Memory

  datatype ArithOp = PlusOp | MinusOp | TimesOp | DivOp | ModOp | AndOp | OrOp | XorOp

  datatype RelOp = EqOp | NeOp | GeOp | GtOp | LeOp | LtOp

  /** Expression templates. `Val` is a leaf holding an SSA value read earlier. */
  datatype Expr =
    | Val(level: nat, ty: Ty)
    | Lit(ty: Ty, n: int)
    | Arith(aop: ArithOp, l: Expr, r: Expr)
    | PtrArith(minus: bool, l: Expr, r: Expr)
    | Rel(rop: RelOp, l: Expr, r: Expr)
    | Cast(to: Ty, e: Expr)
    | BitCast(to: Ty, e: Expr)

  /** The eager reads: variable::get and load. */
  datatype Read = RGet(x: nat) | RLoad(p: Expr)

  datatype Action =
    | ReadValue(rd: Read)
    | Declare(ty: Ty, name: string)
    | Set(x: nat, e: Expr)
    | Store(e: Expr, p: Expr)
    | MemCmp(p: Expr, q: Expr, n: Expr)

  /** A while_ condition: a lambda that may read but has no side effects. */
  datatype Cond = Cond(first: seq<Read>, test: Expr)

  datatype FnRef = FnRef(idx: nat, name: string, params: seq<Ty>, ret: Ty)

  datatype Code =
    | Done
    | Act(a: Action, next: Code)
    | Call(fn: FnRef, args: seq<Expr>, next: Code)
    | If(test: Expr, yes: Code, no: Code, next: Code)
    | IfThen(test: Expr, yes: Code, next: Code)
    | While(cnd: Cond, body: Code, next: Code)
    | Break
    | Continue
    | Return(e: Expr)
    | ReturnVoid

  datatype FnDef = FnDef(name: string, params: seq<Ty>, ret: Ty, body: Code)

  /** break_ and continue_ assert that they are inside a loop. */
  predicate LoopOk(c: Code, inLoop: bool) {
    match c
    case Break => inLoop
    case Continue => inLoop
    case Act(_, next) => LoopOk(next, inLoop)
    case Call(_, _, next) => LoopOk(next, inLoop)
    case If(_, t, f, next) => LoopOk(t, inLoop) && LoopOk(f, inLoop) && LoopOk(next, inLoop)
    case IfThen(_, t, next) => LoopOk(t, inLoop) && LoopOk(next, inLoop)
    case While(_, b, next) => LoopOk(b, true) && LoopOk(next, inLoop)
    case _ => true
  }

  // ----- expressions -----

  function TypeOf(e: Expr): Ty {
    match e
    case Val(_, ty) => ty
    case Lit(ty, _) => ty
    case Arith(_, l, _) => TypeOf(l)
    case PtrArith(_, l, _) => TypeOf(l)
    case Rel(_, _, _) => TBool
    case Cast(to, _) => to
    case BitCast(to, _) => to
  }

  /** What a T* points at. */
  function Pointee(t: Ty): Ty { if t.TPtr? then t.elem else TVoid }

  /** Arithmetic on the values of an integer type. None is undefined behaviour: division by
      zero, and a signed quotient that does not fit. */
  function Arithmetic(op: ArithOp, t: Ty, x: int, y: int): Option<int> {
    match op
    case PlusOp => Some(Norm(t, x + y))
    case MinusOp => Some(Norm(t, x - y))
    case TimesOp => Some(Norm(t, x * y))
    case DivOp => if y == 0 || !InRange(t, TDiv(x, y)) then None else Some(TDiv(x, y))
    case ModOp => if y == 0 || !InRange(t, TDiv(x, y)) then None else Some(TRem(x, y))
    case AndOp => Some(Norm(t, BitAnd(Width(t), PatOf(t, x), PatOf(t, y))))
    case OrOp => Some(Norm(t, BitOr(Width(t), PatOf(t, x), PatOf(t, y))))
    case XorOp => Some(Norm(t, BitXor(Width(t), PatOf(t, x), PatOf(t, y))))
  }

  /** The address i elements past (before) p; pointers are 64-bit and wrap. */
  function Advance(minus: bool, p: int, i: int, size: nat): nat {
    Pat(64, p + Scaled(if minus then -i else i, size))
  }

  predicate Relation(op: RelOp, x: int, y: int) {
    match op
    case EqOp => x == y
    case NeOp => x != y
    case GeOp => x >= y
    case GtOp => x > y
    case LeOp => x <= y
    case LtOp => x < y
  }

  /** A typed value. The value of a void call has type TVoid and cannot be used. */
  datatype SVal = SVal(ty: Ty, v: int)

  type Env = seq<SVal>

  /** Same-size reinterpretation; both sides must be pointers, or neither. */
  predicate BitCastOk(from: Ty, to: Ty) {
    !from.TVoid? && !to.TVoid? && from.TPtr? == to.TPtr? && Width(from) == Width(to)
  }

  /** The value of an expression tree. None also covers what C++ would not compile. */
  function Eval(e: Expr, env: Env): Option<int> {
    match e
    case Val(i, ty) =>
      if i < |env| && env[i].ty == ty && InRange(ty, env[i].v) then Some(env[i].v) else None
    case Lit(ty, n) => if InRange(ty, n) then Some(n) else None
    case Arith(op, l, r) =>
      (match (Eval(l, env), Eval(r, env))
       case (Some(x), Some(y)) =>
         if TypeOf(l) == TypeOf(r) && IsIntegral(TypeOf(l)) then Arithmetic(op, TypeOf(l), x, y) else None
       case _ => None)
    case PtrArith(minus, l, r) =>
      (match (Eval(l, env), Eval(r, env))
       case (Some(p), Some(i)) =>
         if TypeOf(l).TPtr? && IsIntegral(TypeOf(r)) && Size(TypeOf(r)) <= 8
         then Some(Advance(minus, p, i, Size(Pointee(TypeOf(l)))))
         else None
       case _ => None)
    case Rel(op, l, r) =>
      (match (Eval(l, env), Eval(r, env))
       case (Some(x), Some(y)) =>
         if TypeOf(l) == TypeOf(r) && IsIntegral(TypeOf(l))
         then Some(if Relation(op, x, y) then 1 else 0)
         else None
       case _ => None)
    case Cast(to, e1) =>
      (match Eval(e1, env)
       case Some(x) => if IsIntegral(TypeOf(e1)) && IsIntegral(to) then Some(Norm(to, x)) else None
       case None => None)
    case BitCast(to, e1) =>
      (match Eval(e1, env)
       case Some(x) => if BitCastOk(TypeOf(e1), to) then Some(ValOf(to, PatOf(TypeOf(e1), x))) else None
       case None => None)
  }

  function EvalArgs(args: seq<Expr>, env: Env): (r: Option<seq<SVal>>)
    ensures r.Some? ==> |r.value| == |args|
  {
    if args == [] then Some([])
    else match (Eval(args[0], env), EvalArgs(args[1..], env))
      case (Some(v), Some(vs)) => Some([SVal(TypeOf(args[0]), v)] + vs)
      case _ => None
  }

  // ----- statements -----

  /** A local variable; `val` is None until it is first assigned. */
  datatype Cell = Cell(ty: Ty, val: Option<int>)

  /** `heap` is the memory the caller made available. */
  datatype SState = SState(env: Env, vars: seq<Cell>, heap: Mem)

  datatype Outcome =
    | Normal(vars: seq<Cell>, heap: Mem)
    | Broke(vars: seq<Cell>, heap: Mem)
    | Continued(vars: seq<Cell>, heap: Mem)
    | Returned(result: Option<SVal>, heap: Mem)
    | Timeout
    | Wrong

  function DoRead(rd: Read, st: SState): Option<SState> {
    match rd
    case RGet(x) =>
      if x < |st.vars| && st.vars[x].val.Some?
      then Some(st.(env := st.env + [SVal(st.vars[x].ty, st.vars[x].val.value)]))
      else None
    case RLoad(p) =>
      (match Eval(p, st.env)
       case Some(a) =>
         var ty := Pointee(TypeOf(p));
         if ty.TVoid? || a < 0 then None
         else (match LoadTy(st.heap, a, ty)
               case Some(pat) => Some(st.(env := st.env + [SVal(ty, ValOf(ty, pat))]))
               case None => None)
       case None => None)
  }

  function DoReads(rds: seq<Read>, st: SState): Option<SState> {
    if rds == [] then Some(st)
    else match DoRead(rds[0], st)
      case None => None
      case Some(st1) => DoReads(rds[1..], st1)
  }

  ghost function Do(a: Action, st: SState): (r: Option<SState>)
    ensures r.Some? ==> |r.value.vars| >= |st.vars|
  {
    match a
    case ReadValue(rd) => DoRead(rd, st)
    case Declare(ty, _) => if ty.TVoid? then None else Some(st.(vars := st.vars + [Cell(ty, None)]))
    case Set(x, e) =>
      (match Eval(e, st.env)
       case Some(v) =>
         if x < |st.vars| && TypeOf(e) == st.vars[x].ty
         then Some(st.(vars := st.vars[x := Cell(TypeOf(e), Some(v))]))
         else None
       case None => None)
    case Store(e, p) =>
      (match (Eval(e, st.env), Eval(p, st.env))
       case (Some(v), Some(ad)) =>
         var ty := TypeOf(e);
         if TypeOf(p) != TPtr(ty) || ad < 0 then None
         else (match StoreTy(st.heap, ad, ty, PatOf(ty, v))
               case Some(h) => Some(st.(heap := h))
               case None => None)
       case _ => None)
    case MemCmp(p, q, n) =>
      (match EvalArgs([p, q, n], st.env)
       case Some(vs) =>
         if !MemCmpOk(vs) then None
         else (match CompareBytes(st.heap, vs[0].v, vs[1].v, vs[2].v)
               case Some(s) => Some(st.(env := st.env + [SVal(TInt(4, true), s)]))
               case None => None)
       case None => None)
  }

  /** Two pointers and an unsigned length. */
  predicate MemCmpOk(vs: seq<SVal>) {
    |vs| == 3 && vs[0].ty.TPtr? && vs[1].ty.TPtr? && IsIntegral(vs[2].ty) && !IsSigned(vs[2].ty) &&
    forall i :: 0 <= i < 3 ==> vs[i].v >= 0
  }

  /** The truth of a while_ condition, its reads made in the current state. */
  function EvalCond(cnd: Cond, st: SState): Option<bool> {
    match DoReads(cnd.first, st)
    case None => None
    case Some(st1) =>
      match Eval(cnd.test, st1.env)
      case Some(v) => if TypeOf(cnd.test) == TBool then Some(v != 0) else None
      case None => None
  }

  function EvalTest(e: Expr, env: Env): Option<bool> {
    match Eval(e, env)
    case Some(v) => if TypeOf(e) == TBool then Some(v != 0) else None
    case None => None
  }

  /** Leaving a lambda: the variables it declared go out of scope. */
  function Leave(st: SState, vars: seq<Cell>, heap: Mem): SState
    requires |vars| >= |st.vars|
  {
    SState(st.env, vars[..|st.vars|], heap)
  }

  predicate Scoped(o: Outcome, n: nat) {
    (o.Normal? || o.Broke? || o.Continued?) ==> |o.vars| >= n
  }

  function ParamTypes(vs: seq<SVal>): seq<Ty> { seq(|vs|, i requires 0 <= i < |vs| => vs[i].ty) }

  predicate CallOk(fns: seq<FnDef>, k: nat, fn: FnRef, vs: seq<SVal>) {
    fn.idx < k && fn.idx < |fns| && fns[fn.idx].params == ParamTypes(vs) && fns[fn.idx].ret == fn.ret
  }

  /** Big-step meaning of a lambda body inside function k. Each loop iteration spends fuel;
      a call can only reach a function created earlier. */
  ghost function Run(fns: seq<FnDef>, k: nat, fuel: nat, c: Code, st: SState): (o: Outcome)
    ensures Scoped(o, |st.vars|)
    decreases k, fuel, c, 1
  {
    match c
    case Done => Normal(st.vars, st.heap)
    case Break => Broke(st.vars, st.heap)
    case Continue => Continued(st.vars, st.heap)
    case Return(e) => RunReturn(fns, k, e, st)
    case ReturnVoid => if k < |fns| && fns[k].ret.TVoid? then Returned(None, st.heap) else Wrong
    case Act(a, next) => RunAct(fns, k, fuel, a, next, st)
    case Call(fn, args, next) => RunCall(fns, k, fuel, fn, args, next, st)
    case If(e, t, f, next) => RunIf(fns, k, fuel, e, t, f, next, st)
    case IfThen(e, t, next) => RunIfThen(fns, k, fuel, e, t, next, st)
    case While(cnd, body, next) => RunWhile(fns, k, fuel, cnd, body, next, st)
  }

  function RunReturn(fns: seq<FnDef>, k: nat, e: Expr, st: SState): Outcome {
    match Eval(e, st.env)
    case Some(v) =>
      if k < |fns| && TypeOf(e) == fns[k].ret then Returned(Some(SVal(TypeOf(e), v)), st.heap) else Wrong
    case None => Wrong
  }

  ghost function RunAct(fns: seq<FnDef>, k: nat, fuel: nat, a: Action, next: Code, st: SState): (o: Outcome)
    ensures Scoped(o, |st.vars|)
    decreases k, fuel, Act(a, next), 0
  {
    match Do(a, st)
    case Some(st1) => Run(fns, k, fuel, next, st1)
    case None => Wrong
  }

  /** The callee sees the heap but none of the caller's locals. */
  ghost function RunCall(fns: seq<FnDef>, k: nat, fuel: nat, fn: FnRef, args: seq<Expr>, next: Code, st: SState)
    : (o: Outcome)
    ensures Scoped(o, |st.vars|)
    decreases k, fuel, Call(fn, args, next), 0
  {
    match EvalArgs(args, st.env)
    case Some(vs) =>
      if !CallOk(fns, k, fn, vs) then Wrong
      else (match Run(fns, fn.idx, fuel, fns[fn.idx].body, SState(vs, [], st.heap))
            case Returned(v, h) => Run(fns, k, fuel, next, AfterCall(v, h, st))
            case Timeout => Timeout
            case _ => Wrong)
    case None => Wrong
  }

  function AfterCall(v: Option<SVal>, heap: Mem, st: SState): SState {
    st.(env := st.env + [if v.Some? then v.value else SVal(TVoid, 0)], heap := heap)
  }

  /** What an if_ does with the outcome of the arm it took. */
  ghost function AfterArm(fns: seq<FnDef>, k: nat, fuel: nat, a: Outcome, next: Code, st: SState): (o: Outcome)
    requires Scoped(a, |st.vars|)
    ensures Scoped(o, |st.vars|)
    decreases k, fuel, next, 2
  {
    match a
    case Normal(vars, heap) => Run(fns, k, fuel, next, Leave(st, vars, heap))
    case _ => a
  }

  ghost function RunIf(fns: seq<FnDef>, k: nat, fuel: nat, e: Expr, t: Code, f: Code, next: Code, st: SState)
    : (o: Outcome)
    ensures Scoped(o, |st.vars|)
    decreases k, fuel, If(e, t, f, next), 0
  {
    match EvalTest(e, st.env)
    case Some(b) => AfterArm(fns, k, fuel, Run(fns, k, fuel, if b then t else f, st), next, st)
    case None => Wrong
  }

  ghost function RunIfThen(fns: seq<FnDef>, k: nat, fuel: nat, e: Expr, t: Code, next: Code, st: SState): (o: Outcome)
    ensures Scoped(o, |st.vars|)
    decreases k, fuel, IfThen(e, t, next), 0
  {
    match EvalTest(e, st.env)
    case Some(b) =>
      if b then AfterArm(fns, k, fuel, Run(fns, k, fuel, t, st), next, st) else Run(fns, k, fuel, next, st)
    case None => Wrong
  }

  /** What a loop does with the outcome of an iteration of its body. */
  ghost function AfterBody(fns: seq<FnDef>, k: nat, fuel: nat, a: Outcome, cnd: Cond, body: Code, next: Code,
      st: SState): (o: Outcome)
    requires fuel > 0 && Scoped(a, |st.vars|)
    ensures Scoped(o, |st.vars|)
    decreases k, fuel, While(cnd, body, next), 0, 0
  {
    match a
    case Normal(vars, heap) => RunWhile(fns, k, fuel - 1, cnd, body, next, Leave(st, vars, heap))
    case Continued(vars, heap) => RunWhile(fns, k, fuel - 1, cnd, body, next, Leave(st, vars, heap))
    case Broke(vars, heap) => Run(fns, k, fuel, next, Leave(st, vars, heap))
    case _ => a
  }

  ghost function RunWhile(fns: seq<FnDef>, k: nat, fuel: nat, cnd: Cond, body: Code, next: Code, st: SState)
    : (o: Outcome)
    ensures Scoped(o, |st.vars|)
    decreases k, fuel, While(cnd, body, next), 0
  {
    match EvalCond(cnd, st)
    case Some(b) =>
      if !b then Run(fns, k, fuel, next, st)
      else if fuel == 0 then Timeout
      else AfterBody(fns, k, fuel, Run(fns, k, fuel - 1, body, st), cnd, body, next, st)
    case None => Wrong
  }

  /** Calling function k: falling off the end of its body is an error. */
  ghost function RunFunction(fns: seq<FnDef>, k: nat, fuel: nat, args: seq<SVal>, heap: Mem): Outcome
    requires k < |fns|
  {
    match Run(fns, k, fuel, fns[k].body, SState(args, [], heap))
    case Returned(v, h) => Returned(v, h)
    case Timeout => Timeout
    case _ => Wrong
  }
}
