/** What the graphs of the finished functions say about runs: control never leaves their walks, and an
    instruction depends on the registers it is said to use and changes the one it is said to define. */
module Runs {
  import opened Bits
  import opened Types
  import opened Memory
  import opened Source
  import opened Ir
  import opened Lowering
  import opened Flow
  import opened Emission
  import opened Finished
  import opened Ssa
  import opened Correctness

  // ----- control -----

  /** Every frame is in a block to which a walk leads from its function's entry. */
  ghost predicate OnWalks(src: seq<FnDef>, ks: Stack) {
    match ks
    case Bottom => true
    case Push(fr, rest) =>
      fr.fn < |src| && (exists p :: WalkTo(CompileFn(src, fr.fn), p, fr.block)) && OnWalks(src, rest)
  }

  lemma WalkOn(f: Fn, p: seq<Label>, l: Label, t: Label)
    requires WalkTo(f, p, l) && FnEdge(f, l, t)
    ensures WalkTo(f, p + [t], t)
  {
    hide FnEdge;
    var q := p + [t];
    forall i | 0 <= i < |q| - 1
      ensures FnEdge(f, q[i], q[i + 1])
    {
      if i < |p| - 1 { assert FnEdge(f, p[i], p[i + 1]); }
    }
  }

  lemma EntryWalk(f: Fn)
    ensures WalkTo(f, [ENTRY], ENTRY)
  {}

  lemma OnWalksStep(src: seq<FnDef>, s: State)
    requires ProgramOlder(src) && s.Running? && OnWalks(src, s.stack)
    ensures Step(Compile(src), s).Running? ==> OnWalks(src, Step(Compile(src), s).stack)
  {
    hide CompileFn, LoopOk, CallsOlder, StepOp, OpVal, OpVals, WalkTo, Targets;
    if s.stack.Push? && Fetch(Compile(src), s.stack.top).Some? {
      var fr := s.stack.top;
      var f, op := CompileFn(src, fr.fn), Fetch(Compile(src), fr).value;
      assert Compile(src)[fr.fn] == f && op == FnOps(f, fr.block)[fr.pc];
      var p :| WalkTo(f, p, fr.block);
      TargetsAt(FnOps(f, fr.block), fr.pc);
      forall t | t in TargetsOf(op)
        ensures WalkTo(f, p + [t], t)
      {
        WalkOn(f, p, fr.block, t);
      }
      if op.ICall? {
        CalleeOlder(src, fr.fn, fr.block, fr.pc);
        EntryWalk(CompileFn(src, op.fn));
      }
    }
  }

  lemma {:induction false} OnWalksRun(src: seq<FnDef>, n: nat, s: State)
    requires ProgramOlder(src) && (s.Running? ==> OnWalks(src, s.stack))
    ensures Steps(Compile(src), n, s).Running? ==> OnWalks(src, Steps(Compile(src), n, s).stack)
    decreases n
  {
    hide ProgramOlder, OnWalks;
    if n > 0 {
      if s.Running? {
        OnWalksStep(src, s);
      }
      OnWalksRun(src, n - 1, Step(Compile(src), s));
    }
  }

  /** However a run goes, right or wrong, every frame on its stack is where some walk leads; so what holds on
      all walks holds of all runs. */
  lemma RunsFollowWalks(src: seq<FnDef>, j: nat, vs: seq<SVal>, sp: nat, mem: Mem, n: nat)
    requires ProgramOlder(src) && j < |src|
    ensures var s := Steps(Compile(src), n, Start(j, vs, sp, mem));
            s.Running? ==> OnWalks(src, s.stack)
  {
    EntryWalk(CompileFn(src, j));
    OnWalksRun(src, n, Start(j, vs, sp, mem));
  }

  // ----- data -----

  predicate SameOn(rs: set<nat>, a: Regs, b: Regs) {
    forall r :: r in rs ==> (r in a <==> r in b) && (r in a ==> a[r] == b[r])
  }

  lemma SameOperand(o: Operand, a: Regs, b: Regs, slots: Regs)
    requires SameOn(RegOf(o), a, b)
    ensures OpVal(o, a, slots) == OpVal(o, b, slots)
  {}

  lemma {:induction false} SameOperands(os: seq<Operand>, a: Regs, b: Regs, slots: Regs)
    requires SameOn(RegsOf(os), a, b)
    ensures OpVals(os, a, slots) == OpVals(os, b, slots)
    decreases |os|
  {
    if os != [] {
      SameOperand(os[0], a, b, slots);
      SameOperands(os[1..], a, b, slots);
    }
  }

  lemma OneOperand(rs: set<nat>, o: Operand, a: Regs, b: Regs, slots: Regs)
    requires SameOn(rs, a, b) && RegOf(o) <= rs
    ensures OpVal(o, a, slots) == OpVal(o, b, slots)
  {
    SameOperand(o, a, b, slots);
  }

  /** From two cores that differ only in registers: both steps stuck, or the same memory, the same value in
      each register of ds, and no other register touched. */
  predicate Likewise(ds: set<nat>, c: Core, r1: Option<Core>, r2: Option<Core>) {
    (r1.Some? <==> r2.Some?) &&
    (r1.Some? ==>
       r1.value.mem == r2.value.mem && SameOn(ds, r1.value.regs, r2.value.regs) &&
       r1.value.regs.Keys == c.regs.Keys + ds &&
       forall r :: r in c.regs && r !in ds ==> r1.value.regs[r] == c.regs[r])
  }

  lemma SetLikewise(c: Core, regs: Regs, dst: nat, v: Option<nat>)
    ensures Likewise({dst}, c, SetReg(c, dst, v), SetReg(c.(regs := regs), dst, v))
  {}

  lemma MemoryLikewise(c: Core, regs: Regs, mem: Mem)
    ensures Likewise({}, c, Some(c.(mem := mem)), Some(c.(regs := regs, mem := mem)))
  {}

  /** A straight-line instruction sees the registers it uses and no others, and sets exactly the one it
      defines. */
  lemma UsesSuffice(op: Op, slots: Regs, c: Core, regs: Regs)
    requires IsStraight(op) && SameOn(UsesOf(op), c.regs, regs)
    ensures Likewise(DefOf(op), c, StepOp(op, slots, c), StepOp(op, slots, c.(regs := regs)))
  {
    hide EvalBin, EvalPred, ElementAddress, LoadTy, StoreTy, CompareBytes, Signed, Pat, SameOn, OpVal, SetReg;
    forall o: Operand | RegOf(o) <= UsesOf(op)
      ensures OpVal(o, c.regs, slots) == OpVal(o, regs, slots)
    {
      OneOperand(UsesOf(op), o, c.regs, regs, slots);
    }
    forall dst: nat, v: Option<nat>
      ensures Likewise({dst}, c, SetReg(c, dst, v), SetReg(c.(regs := regs), dst, v))
    {
      SetLikewise(c, regs, dst, v);
    }
    forall mem: Mem
      ensures Likewise({}, c, Some(c.(mem := mem)), Some(c.(regs := regs, mem := mem)))
    {
      MemoryLikewise(c, regs, mem);
    }
    hide Likewise;
  }

  /** A state but for the registers of the frame that took the step; what op puts above that frame, or returns
      below it, is kept. */
  function Besides(op: Op, s: State): State {
    match s
    case Running(Push(fr, ks), mem) =>
      if op.IRet? then s
      else if op.ICall? then
        (match ks
         case Push(caller, rest) => Running(Push(fr, Push(caller.(regs := map[]), rest)), mem)
         case Bottom => s)
      else Running(Push(fr.(regs := map[]), ks), mem)
    case _ => s
  }

  /** Where control goes, whether it gets stuck, what a callee or a caller is given and what becomes of memory
      depend on the registers used only. */
  lemma UsesDecide(op: Op, fr: Frame, regs: Regs, ks: Stack, mem: Mem)
    requires SameOn(UsesOf(op), fr.regs, regs)
    ensures Besides(op, Exec(op, fr.(regs := regs), ks, mem)) == Besides(op, Exec(op, fr, ks, mem))
  {
    hide StepOp, OpVal, OpVals, SameOn, WriteLE;
    match op
    case ICondBr(c, _, _) => SameOperand(c, fr.regs, regs, fr.slots);
    case IRet(Some(o)) => SameOperand(o, fr.regs, regs, fr.slots);
    case ICall(_, _, args) => SameOperands(args, fr.regs, regs, fr.slots);
    case IRet(None) =>
    case IBr(_) =>
    case IAlloca(_, _) =>
    case _ => UsesSuffice(op, fr.slots, Core(fr.regs, mem), regs);
  }
}
