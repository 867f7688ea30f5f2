/** The slice of LLVM IR the builder emits, and a small-step machine for it:
    a stack of frames over one flat memory. */
module Ir {
  import opened Bits
  import opened Types
  import opened Memory

  datatype Kind = Entry | TrueBlock | FalseBlock | MergeBlock | WhileContinue | WhileIteration | WhileBreak

  /** A basic block's identity: the name it is created with and its creation number. */
  datatype Label = Label(kind: Kind, id: nat)

  const ENTRY := Label(Entry, 0)

  datatype Operand = Const(pattern: nat) | Reg(r: nat) | SlotPtr(slot: nat)

  datatype BinOp = Add | Sub | Mul | SDiv | UDiv | SRem | URem | And | Or | Xor

  datatype Pred = EQ | NE | SGE | UGE | SGT | UGT | SLE | ULE | SLT | ULT

  datatype Op =
    | IBin(dst: nat, bop: BinOp, w: nat, a: Operand, b: Operand)
    | ICmp(dst: nat, pred: Pred, w: nat, a: Operand, b: Operand)
    | ISExt(dst: nat, from: nat, to: nat, a: Operand)
    | IZExt(dst: nat, from: nat, to: nat, a: Operand)
    | ITrunc(dst: nat, from: nat, to: nat, a: Operand)
    | IBitCast(dst: nat, a: Operand)
    | IGep(dst: nat, scale: nat, base: Operand, index: Operand)
    | ILoad(dst: nat, ty: Ty, ptr: Operand)
    | IStore(ty: Ty, v: Operand, ptr: Operand)
    | IMemCmp(dst: nat, p: Operand, q: Operand, n: Operand)
    | IAlloca(slot: nat, ty: Ty)
    | ICall(dst: nat, fn: nat, args: seq<Operand>)
    | IBr(target: Label)
    | ICondBr(cond: Operand, yes: Label, no: Label)
    | IRet(result: Option<Operand>)

  datatype Scope = FileScope | FnScope(parent: Scope, name: string, line: nat) | Lexical(parent: Scope, line: nat)

  datatype DebugLoc = NoLoc | Loc(line: nat, scope: Scope)

  datatype Ins = Ins(op: Op, loc: DebugLoc)

  type Blocks = map<Label, seq<Ins>>

  /** A finished function: its blocks, their layout, and the types of its allocas. */
  datatype Fn = Fn(blocks: Blocks, order: seq<Label>, slots: seq<Ty>)

  predicate IsTerminator(op: Op) { op.IBr? || op.ICondBr? || op.IRet? }

  /** Instructions that neither move control nor allocate. */
  predicate IsStraight(op: Op) { !IsTerminator(op) && !op.ICall? && !op.IAlloca? }

  // ----- instructions on bit patterns -----

  function EvalBin(op: BinOp, w: nat, a: nat, b: nat): Option<nat> {
    match op
    case Add => Some(Pat(w, a + b))
    case Sub => Some(Pat(w, a - b))
    case Mul => Some(Pat(w, a * b))
    case UDiv => if b == 0 then None else Some(a / b)
    case URem => if b == 0 then None else Some(a % b)
    case SDiv =>
      var x, y := Signed(w, a), Signed(w, b);
      if y == 0 || (w > 0 && x == -Pow2(w - 1) && y == -1) then None else Some(Pat(w, TDiv(x, y)))
    case SRem =>
      var x, y := Signed(w, a), Signed(w, b);
      if y == 0 || (w > 0 && x == -Pow2(w - 1) && y == -1) then None else Some(Pat(w, TRem(x, y)))
    case And => Some(BitAnd(w, a, b))
    case Or => Some(BitOr(w, a, b))
    case Xor => Some(BitXor(w, a, b))
  }

  predicate EvalPred(p: Pred, w: nat, a: nat, b: nat) {
    match p
    case EQ => a == b
    case NE => a != b
    case UGE => a >= b
    case UGT => a > b
    case ULE => a <= b
    case ULT => a < b
    case SGE => Signed(w, a) >= Signed(w, b)
    case SGT => Signed(w, a) > Signed(w, b)
    case SLE => Signed(w, a) <= Signed(w, b)
    case SLT => Signed(w, a) < Signed(w, b)
  }

  /** What getelementptr computes from a base and a 64-bit index. */
  function ElementAddress(p: int, index: nat, scale: nat): nat {
    Pat(64, p + Scaled(Signed(64, index), scale))
  }

  // ----- the machine -----

  type Regs = map<nat, nat>

  /** `slots` holds the addresses its allocas returned; [base, sp) is its stack memory;
      `dst` is the caller's register that receives the result. */
  datatype Frame = Frame(fn: nat, block: Label, pc: nat, regs: Regs, slots: Regs, base: nat, sp: nat, dst: nat)

  datatype Stack = Bottom | Push(top: Frame, rest: Stack)

  datatype State = Running(stack: Stack, mem: Mem) | Halted(result: Option<nat>, mem: Mem) | Stuck

  datatype Core = Core(regs: Regs, mem: Mem)

  function OpVal(o: Operand, regs: Regs, slots: Regs): Option<nat> {
    match o
    case Const(p) => Some(p)
    case Reg(r) => if r in regs then Some(regs[r]) else None
    case SlotPtr(k) => if k in slots then Some(slots[k]) else None
  }

  function OpVals(os: seq<Operand>, regs: Regs, slots: Regs): (r: Option<seq<nat>>)
    ensures r.Some? ==> |r.value| == |os|
  {
    if os == [] then Some([])
    else match (OpVal(os[0], regs, slots), OpVals(os[1..], regs, slots))
      case (Some(v), Some(vs)) => Some([v] + vs)
      case _ => None
  }

  function SetReg(c: Core, dst: nat, v: Option<nat>): Option<Core> {
    match v
    case None => None
    case Some(p) => Some(c.(regs := c.regs[dst := p]))
  }

  /** One straight-line instruction; None is undefined behaviour. */
  ghost function StepOp(op: Op, slots: Regs, c: Core): Option<Core> {
    match op
    case IBin(dst, bop, w, a, b) =>
      (match (OpVal(a, c.regs, slots), OpVal(b, c.regs, slots))
       case (Some(x), Some(y)) => SetReg(c, dst, EvalBin(bop, w, x, y))
       case _ => None)
    case ICmp(dst, p, w, a, b) =>
      (match (OpVal(a, c.regs, slots), OpVal(b, c.regs, slots))
       case (Some(x), Some(y)) => SetReg(c, dst, Some(if EvalPred(p, w, x, y) then 1 else 0))
       case _ => None)
    case ISExt(dst, from, to, a) =>
      (match OpVal(a, c.regs, slots)
       case Some(x) => SetReg(c, dst, Some(Pat(to, Signed(from, x))))
       case _ => None)
    case IZExt(dst, from, to, a) => SetReg(c, dst, OpVal(a, c.regs, slots))
    case ITrunc(dst, from, to, a) =>
      (match OpVal(a, c.regs, slots)
       case Some(x) => SetReg(c, dst, Some(Pat(to, x)))
       case _ => None)
    case IBitCast(dst, a) => SetReg(c, dst, OpVal(a, c.regs, slots))
    case IGep(dst, scale, p, i) =>
      (match (OpVal(p, c.regs, slots), OpVal(i, c.regs, slots))
       case (Some(x), Some(y)) => SetReg(c, dst, Some(ElementAddress(x, y, scale)))
       case _ => None)
    case ILoad(dst, ty, ptr) =>
      (match OpVal(ptr, c.regs, slots)
       case Some(a) => SetReg(c, dst, LoadTy(c.mem, a, ty))
       case _ => None)
    case IStore(ty, v, ptr) =>
      (match (OpVal(v, c.regs, slots), OpVal(ptr, c.regs, slots))
       case (Some(x), Some(a)) =>
         (match StoreTy(c.mem, a, ty, x)
          case Some(m) => Some(c.(mem := m))
          case None => None)
       case _ => None)
    case IMemCmp(dst, p, q, n) =>
      (match (OpVal(p, c.regs, slots), OpVal(q, c.regs, slots), OpVal(n, c.regs, slots))
       case (Some(x), Some(y), Some(k)) =>
         (match CompareBytes(c.mem, x, y, k)
          case Some(s) => SetReg(c, dst, Some(Pat(32, s)))
          case None => None)
       case _ => None)
    case _ => None
  }

  /** Straight-line code in sequence. */
  ghost function RunOps(ops: seq<Op>, slots: Regs, c: Core): Option<Core> {
    if ops == [] then Some(c)
    else if !IsStraight(ops[0]) then None
    else match StepOp(ops[0], slots, c)
      case None => None
      case Some(c1) => RunOps(ops[1..], slots, c1)
  }

  function ReturnTo(v: Option<nat>, dst: nat, ks: Stack, mem: Mem): State {
    match ks
    case Bottom => Halted(v, mem)
    case Push(fr, rest) =>
      Running(Push(if v.Some? then fr.(regs := fr.regs[dst := v.value]) else fr, rest), mem)
  }

  /** The frame a call creates: arguments are the first registers, stack memory starts at sp. */
  function Enter(fn: nat, args: seq<nat>, sp: nat, dst: nat): Frame {
    Frame(fn, ENTRY, 0, map i: nat | i < |args| :: args[i], map[], sp, sp, dst)
  }

  /** The instruction about to execute, if control has not run off a block. */
  function Fetch(fns: seq<Fn>, fr: Frame): Option<Op> {
    if fr.fn < |fns| && fr.block in fns[fr.fn].blocks && fr.pc < |fns[fr.fn].blocks[fr.block]|
    then Some(fns[fr.fn].blocks[fr.block][fr.pc].op)
    else None
  }

  ghost function Exec(op: Op, fr: Frame, ks: Stack, mem: Mem): State {
    match op
    case IBr(l) => Running(Push(fr.(block := l, pc := 0), ks), mem)
    case ICondBr(c, yes, no) =>
      (match OpVal(c, fr.regs, fr.slots)
       case Some(v) => Running(Push(fr.(block := if v != 0 then yes else no, pc := 0), ks), mem)
       case None => Stuck)
    case IRet(None) => ReturnTo(None, fr.dst, ks, mem)
    case IRet(Some(o)) =>
      (match OpVal(o, fr.regs, fr.slots)
       case Some(v) => ReturnTo(Some(v), fr.dst, ks, mem)
       case None => Stuck)
    case IAlloca(k, ty) =>
      Running(Push(fr.(pc := fr.pc + 1, slots := fr.slots[k := fr.sp], sp := fr.sp + Size(ty)), ks),
              WriteLE(mem, fr.sp, Size(ty), 0))
    case ICall(dst, f, args) =>
      (match OpVals(args, fr.regs, fr.slots)
       case Some(vs) => Running(Push(Enter(f, vs, fr.sp, dst), Push(fr.(pc := fr.pc + 1), ks)), mem)
       case None => Stuck)
    case _ =>
      (match StepOp(op, fr.slots, Core(fr.regs, mem))
       case Some(c) => Running(Push(fr.(pc := fr.pc + 1, regs := c.regs), ks), c.mem)
       case None => Stuck)
  }

  ghost function Step(fns: seq<Fn>, s: State): State {
    match s
    case Running(Push(fr, ks), mem) =>
      (match Fetch(fns, fr)
       case Some(op) => Exec(op, fr, ks, mem)
       case None => Stuck)
    case Running(Bottom, _) => Stuck
    case _ => s
  }

  ghost function Steps(fns: seq<Fn>, n: nat, s: State): State {
    if n == 0 then s else Steps(fns, n - 1, Step(fns, s))
  }

  // ----- runs -----

  lemma {:induction false} StepsAdd(fns: seq<Fn>, m: nat, n: nat, s: State)
    ensures Steps(fns, m + n, s) == Steps(fns, n, Steps(fns, m, s))
  {
    if m > 0 {
      StepsAdd(fns, m - 1, n, Step(fns, s));
    }
  }

  lemma {:induction false} StepsStopped(fns: seq<Fn>, n: nat, s: State)
    requires !s.Running?
    ensures Steps(fns, n, s) == s
  {
    if n > 0 {
      StepsStopped(fns, n - 1, s);
    }
  }

  /** A run that is still going after n steps was still going before. */
  lemma RunningBefore(fns: seq<Fn>, m: nat, n: nat, s: State)
    requires m <= n && Steps(fns, n, s).Running?
    ensures Steps(fns, m, s).Running?
  {
    StepsAdd(fns, m, n - m, s);
    if !Steps(fns, m, s).Running? {
      StepsStopped(fns, n - m, Steps(fns, m, s));
    }
  }

  lemma {:induction false} RunOpsAppend(xs: seq<Op>, ys: seq<Op>, slots: Regs, c: Core)
    ensures RunOps(xs + ys, slots, c) ==
            match RunOps(xs, slots, c)
            case None => None
            case Some(c1) => RunOps(ys, slots, c1)
  {
    if xs == [] {
      assert xs + ys == ys;
    } else {
      assert (xs + ys)[0] == xs[0] && (xs + ys)[1..] == xs[1..] + ys;
      if IsStraight(xs[0]) {
        match StepOp(xs[0], slots, c)
        case None =>
        case Some(c1) => RunOpsAppend(xs[1..], ys, slots, c1);
      }
    }
  }

  /** The ops found at position pc of block l of function k. */
  predicate OpsAt(fns: seq<Fn>, k: nat, l: Label, pc: nat, ops: seq<Op>) {
    k < |fns| && l in fns[k].blocks && pc + |ops| <= |fns[k].blocks[l]| &&
    forall i :: 0 <= i < |ops| ==> fns[k].blocks[l][pc + i].op == ops[i]
  }

  /** The machine executes straight-line code as RunOps says. */
  lemma {:induction false} StepsOps(fns: seq<Fn>, fr: Frame, ks: Stack, mem: Mem, ops: seq<Op>)
    requires OpsAt(fns, fr.fn, fr.block, fr.pc, ops)
    requires RunOps(ops, fr.slots, Core(fr.regs, mem)).Some?
    ensures var c := RunOps(ops, fr.slots, Core(fr.regs, mem)).value;
            Steps(fns, |ops|, Running(Push(fr, ks), mem)) ==
            Running(Push(fr.(pc := fr.pc + |ops|, regs := c.regs), ks), c.mem)
    decreases |ops|
  {
    hide StepOp, Enter;
    if ops == [] {
      assert fr.(pc := fr.pc + |ops|, regs := fr.regs) == fr;
    } else {
      var c1 := StepOp(ops[0], fr.slots, Core(fr.regs, mem)).value;
      var fr1 := fr.(pc := fr.pc + 1, regs := c1.regs);
      assert Fetch(fns, fr) == Some(ops[0]) by {
        assert fns[fr.fn].blocks[fr.block][fr.pc + 0].op == ops[0];
      }
      assert Step(fns, Running(Push(fr, ks), mem)) == Running(Push(fr1, ks), c1.mem);
      forall i | 0 <= i < |ops| - 1
        ensures fns[fr.fn].blocks[fr.block][fr.pc + 1 + i].op == ops[1..][i]
      {
        assert fns[fr.fn].blocks[fr.block][fr.pc + (i + 1)].op == ops[i + 1];
      }
      StepsOps(fns, fr1, ks, c1.mem, ops[1..]);
      assert fr1.(pc := fr1.pc + |ops[1..]|) == fr.(pc := fr.pc + |ops|, regs := c1.regs);
    }
  }
}
