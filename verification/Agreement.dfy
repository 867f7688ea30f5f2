/** The relations between a source state and a machine state that the correctness proofs keep. */
module Agreement {
  import opened Types
  import opened Memory
  import opened Source
  import opened Ir
  import opened Text
  import opened Lowering
  import opened Shapes

  predicate OpBelow(o: Operand, n: nat) {
    o.Const? || (o.Reg? && o.r < n)
  }

  /** Registers below n are untouched. */
  predicate SameBelow(a: Regs, b: Regs, n: nat) {
    forall r :: 0 <= r < n ==> (r in a <==> r in b) && (r in a ==> a[r] == b[r])
  }

  /** Every usable value in scope sits in its operand as the pattern of its type. */
  predicate ValsMatch(vals: seq<Value>, env: Env, regs: Regs, bound: nat) {
    |vals| == |env| &&
    forall i :: 0 <= i < |env| ==> ValMatch(vals[i], env[i], regs, bound)
  }

  predicate ValMatch(v: Value, s: SVal, regs: Regs, bound: nat) {
    s.ty.TVoid? ||
    (OpBelow(v.op, bound) && InRange(s.ty, s.v) && OpVal(v.op, regs, map[]) == Some(PatOf(s.ty, s.v)))
  }

  /** The pattern `c` leaves in its result operand, provided that running it leaves memory and
      the registers below r alone. */
  ghost function Yield(c: ExprCode, r: nat, slots: Regs, k: Core): Option<nat> {
    if c.next < r || !OpBelow(c.res, c.next) then None
    else match RunOps(c.ops, slots, k)
      case None => None
      case Some(k1) => if k1.mem == k.mem && SameBelow(k.regs, k1.regs, r) then OpVal(c.res, k1.regs, slots) else None
  }

  ghost predicate Computes(c: ExprCode, r: nat, slots: Regs, k: Core, p: nat) {
    Yield(c, r, slots, k) == Some(p)
  }

  ghost function After(ops: seq<Op>, slots: Regs, k: Core): Core {
    match RunOps(ops, slots, k)
    case Some(k1) => k1
    case None => k
  }

  // ----- variables and memory -----

  /** Each alloca has its own stretch of the frame's stack memory. */
  ghost predicate FrameOk(tys: seq<Ty>, slots: Regs, base: nat, sp: nat, mem: Mem) {
    base <= sp &&
    (forall k :: 0 <= k < |tys| ==> SlotOk(tys[k], k, slots, base, sp, mem)) &&
    (forall j, k :: 0 <= j < k < |tys| ==> Apart(slots, j, tys[j], k, tys[k]))
  }

  predicate SlotOk(t: Ty, k: nat, slots: Regs, base: nat, sp: nat, mem: Mem) {
    k in slots && base <= slots[k] && slots[k] + Size(t) <= sp && Mapped(mem, slots[k], Size(t))
  }

  predicate Apart(slots: Regs, j: nat, tj: Ty, k: nat, tk: Ty) {
    j in slots && k in slots && (slots[j] + Size(tj) <= slots[k] || slots[k] + Size(tk) <= slots[j])
  }

  /** Each variable in scope owns an alloca of its type, which holds its value once it has one. */
  ghost predicate VarsMatch(tys: seq<Ty>, ns: nat, vars: seq<Variable>, cells: seq<Cell>, slots: Regs, mem: Mem) {
    |vars| == |cells| && ns <= |tys| &&
    (forall i :: 0 <= i < |vars| ==> VarMatch(tys, ns, vars[i], cells[i], slots, mem)) &&
    (forall i, j :: 0 <= i < j < |vars| ==> vars[i].slot != vars[j].slot)
  }

  predicate VarMatch(tys: seq<Ty>, ns: nat, v: Variable, c: Cell, slots: Regs, mem: Mem) {
    v.slot < ns <= |tys| && tys[v.slot] == v.ty == c.ty && !v.ty.TVoid? && v.slot in slots &&
    (c.val.Some? ==> InRange(v.ty, c.val.value) && LoadTy(mem, slots[v.slot], v.ty) == Some(PatOf(v.ty, c.val.value)))
  }

  /** The caller's memory sits below the frame and reads the same. */
  ghost predicate HeapMatch(heap: Mem, mem: Mem, base: nat) {
    forall a :: a in heap ==> a < base && a in mem && mem[a] == heap[a]
  }

  ghost predicate StateMatch(tys: seq<Ty>, ls: Locals, st: SState, nr: nat, ns: nat, fr: Frame, mem: Mem) {
    ValsMatch(ls.vals, st.env, fr.regs, nr) && VarsMatch(tys, ns, ls.vars, st.vars, fr.slots, mem) &&
    FrameOk(tys, fr.slots, fr.base, fr.sp, mem) && HeapMatch(st.heap, mem, fr.base)
  }

  /** Memory below the frame that is not the program's heap is untouched. */
  ghost predicate MemKept(mem: Mem, mem': Mem, heap: Mem, base: nat) {
    forall a :: a in mem ==> a in mem' && (a < base && a !in heap ==> mem'[a] == mem[a])
  }

  /** The frame apart from its position and the registers from nr on. */
  ghost predicate FrameKept(fr: Frame, fr': Frame, nr: nat) {
    fr'.fn == fr.fn && fr'.slots == fr.slots && fr'.base == fr.base && fr'.sp == fr.sp && fr'.dst == fr.dst &&
    SameBelow(fr.regs, fr'.regs, nr)
  }

  /** Running the code of a straight-line statement takes a match for st to a match for st1. */
  ghost predicate Advances(
      tys: seq<Ty>, ops: seq<Op>, ls1: Locals, st: SState, st1: SState, nr: nat, nr1: nat, ns1: nat, fr: Frame,
      mem: Mem)
  {
    nr <= nr1 && st1.heap.Keys == st.heap.Keys &&
    match RunOps(ops, fr.slots, Core(fr.regs, mem))
    case None => false
    case Some(k1) =>
      StateMatch(tys, ls1, st1, nr1, ns1, fr.(regs := k1.regs), k1.mem) &&
      SameBelow(fr.regs, k1.regs, nr) && MemKept(mem, k1.mem, st.heap, fr.base)
  }

  function Pats(vs: seq<SVal>): seq<nat> { seq(|vs|, i requires 0 <= i < |vs| => PatOf(vs[i].ty, vs[i].v)) }

  predicate AllInRange(vs: seq<SVal>) {
    forall i :: 0 <= i < |vs| ==> InRange(vs[i].ty, vs[i].v)
  }

  ghost predicate ArgsCompute(c: ArgsCode, r: nat, slots: Regs, k: Core, ps: seq<nat>) {
    c.next >= r && (forall i :: 0 <= i < |c.res| ==> OpBelow(c.res[i], c.next)) &&
    match RunOps(c.ops, slots, k)
    case None => false
    case Some(k1) => k1.mem == k.mem && SameBelow(k.regs, k1.regs, r) && OpVals(c.res, k1.regs, slots) == Some(ps)
  }

  // ----- positions in the finished function -----

  /** Function k of the program `src`, compiled to `fns`; `gf` is the control-flow graph its body left. */
  datatype World = World(src: seq<FnDef>, fns: seq<Fn>, k: nat, gf: Cfg)

  ghost predicate WorldOk(w: World) {
    w.k < |w.src| && |w.fns| == |w.src| && w.fns[w.k] == Finish(w.gf) && ENTRY in w.gf.code
  }

  /** The whole program is compiled by one builder, and its loops exits are inside loops. */
  ghost predicate ProgramOk(src: seq<FnDef>, fns: seq<Fn>) {
    fns == Compile(src) && forall j :: 0 <= j < |src| ==> LoopOk(src[j].body, false)
  }

  function Off(gf: Cfg, l: Label): nat { if l == ENTRY then |gf.slots| else 0 }

  ghost predicate Included(g: Cfg, gf: Cfg) {
    g.slots <= gf.slots && forall l :: l in g.code ==> l in gf.code && g.code[l] <= gf.code[l]
  }

  /** The finished graph has `ins` at index i of block l. */
  ghost predicate Holds(gf: Cfg, l: Label, i: nat, ins: seq<Ins>) {
    l in gf.code && i + |ins| <= |gf.code[l]| && gf.code[l][i..i + |ins|] == ins
  }

  /** The frame is about to execute index i of block l; the entry block's allocas come first. */
  predicate AtPos(w: World, fr: Frame, l: Label, i: nat) {
    fr.fn == w.k && fr.block == l && fr.pc == Off(w.gf, l) + i
  }

  ghost predicate AtEnd(w: World, fr: Frame, g: Cfg) {
    g.cur in g.code && AtPos(w, fr, g.cur, |g.code[g.cur]|)
  }

  /** n steps take the top frame from fr to fr', the frames below untouched. */
  ghost predicate Goes(fns: seq<Fn>, n: nat, fr: Frame, ks: Stack, mem: Mem, fr': Frame, mem': Mem) {
    Steps(fns, n, Running(Push(fr, ks), mem)) == Running(Push(fr', ks), mem')
  }

  // ----- simulation -----

  /** The machine has reached the state that `vars` and `heap` describe, seen from the scope of st. */
  ghost predicate Resumes(
      w: World, ls: Locals, st: SState, vars: seq<Cell>, heap: Mem, g: Cfg,
      fr: Frame, ks: Stack, mem: Mem, n: nat, fr': Frame, mem': Mem)
  {
    Goes(w.fns, n, fr, ks, mem, fr', mem') && |vars| >= |st.vars| && heap.Keys == st.heap.Keys &&
    StateMatch(w.gf.slots, ls, SState(st.env, vars[..|st.vars|], heap), g.nextReg, |g.slots|, fr', mem') &&
    FrameKept(fr, fr', g.nextReg) && MemKept(mem, mem', st.heap, fr.base)
  }

  function ResultPattern(v: Option<SVal>): Option<nat> {
    if v.Some? then Some(PatOf(v.value.ty, v.value.v)) else None
  }

  /** What the machine does when the source, from scope (ls, st), has outcome o. `g` is the graph
      when generation of the code started and `g'` when it ended. */
  ghost predicate Simulated(
      w: World, o: Outcome, fuel: nat, ls: Locals, st: SState, g: Cfg, g': Cfg,
      fr: Frame, ks: Stack, mem: Mem, n: nat, fr': Frame, mem': Mem)
  {
    match o
    case Wrong => true
    case Timeout => n >= fuel && Steps(w.fns, n, Running(Push(fr, ks), mem)).Running?
    case Normal(vars, heap) =>
      !g'.exited && Resumes(w, ls, st, vars, heap, g, fr, ks, mem, n, fr', mem') && AtEnd(w, fr', g')
    case Broke(vars, heap) =>
      g.loop.InLoop? && Resumes(w, ls, st, vars, heap, g, fr, ks, mem, n, fr', mem') &&
      fr'.block == g.loop.breakBlock && fr'.pc == 0
    case Continued(vars, heap) =>
      g.loop.InLoop? && Resumes(w, ls, st, vars, heap, g, fr, ks, mem, n, fr', mem') &&
      fr'.block == g.loop.continueBlock && fr'.pc == 0
    case Returned(v, heap) =>
      heap.Keys == st.heap.Keys && (v.Some? ==> InRange(v.value.ty, v.value.v)) &&
      Steps(w.fns, n, Running(Push(fr, ks), mem)) == ReturnTo(ResultPattern(v), fr.dst, ks, mem') &&
      HeapMatch(heap, mem', fr.base) && MemKept(mem, mem', st.heap, fr.base)
  }

  ghost predicate InnerScope(ls: Locals, st: SState, g: Cfg, ls1: Locals, st1: SState, g1: Cfg) {
    ls.vals <= ls1.vals && ls.vars <= ls1.vars && st.env <= st1.env && |st.vars| <= |st1.vars| &&
    st1.heap.Keys == st.heap.Keys && g.nextReg <= g1.nextReg
  }

  /** Everything known where the code of a lambda body begins. */
  ghost predicate Ready(w: World, c: Code, ls: Locals, st: SState, b: Builder, fr: Frame, mem: Mem) {
    Sane(b.cfg) && !b.cfg.exited && LoopOk(c, b.cfg.loop.InLoop?) && Included(Lower(c, ls, b).cfg, w.gf) &&
    AtEnd(w, fr, b.cfg) && StateMatch(w.gf.slots, ls, st, b.cfg.nextReg, |b.cfg.slots|, fr, mem)
  }

  // ----- function entry -----

  /** The allocas from number m on have run. */
  ghost predicate PartFrame(tys: seq<Ty>, m: nat, slots: Regs, base: nat, sp: nat, mem: Mem) {
    base <= sp &&
    (forall k :: m <= k < |tys| ==> SlotOk(tys[k], k, slots, base, sp, mem)) &&
    (forall j, k :: m <= j < k < |tys| ==> Apart(slots, j, tys[j], k, tys[k]))
  }

  /** The outcome of calling a function, on the machine. */
  ghost predicate FunctionSimulated(
      fns: seq<Fn>, o: Outcome, fuel: nat, heap: Mem, fr: Frame, ks: Stack, mem: Mem, n: nat, mem': Mem)
  {
    match o
    case Timeout => n >= fuel && Steps(fns, n, Running(Push(fr, ks), mem)).Running?
    case Returned(v, heap') =>
      heap'.Keys == heap.Keys && (v.Some? ==> InRange(v.value.ty, v.value.v)) &&
      Steps(fns, n, Running(Push(fr, ks), mem)) == ReturnTo(ResultPattern(v), fr.dst, ks, mem') &&
      HeapMatch(heap', mem', fr.base) && MemKept(mem, mem', heap, fr.base)
    case _ => true
  }

  // ----- branching statements -----

  /** An arm that has not exited ends in a branch to the join block. */
  ghost predicate CloseHolds(gf: Cfg, bEnd: Builder, join: Label) {
    var g := bEnd.cfg;
    g.cur in g.code && g.cur in gf.code &&
    (!g.exited ==> |g.code[g.cur]| < |gf.code[g.cur]| && gf.code[g.cur][|g.code[g.cur]|].op == IBr(join))
  }

  /** The code after a branching statement begins in its empty join block. */
  ghost predicate Joined(w: World, next: Code, ls: Locals, b: Builder, join: Label) {
    Sane(b.cfg) && !b.cfg.exited && LoopOk(next, b.cfg.loop.InLoop?) && Included(Lower(next, ls, b).cfg, w.gf) &&
    b.cfg.cur == join && b.cfg.code[join] == [] && join != ENTRY
  }

  /** The scope of b continues after the join, with everything allocated in between still reserved. */
  ghost predicate JoinsTo(w: World, b: Builder, bJoin: Builder) {
    b.cfg.nextReg <= bJoin.cfg.nextReg && |b.cfg.slots| <= |bJoin.cfg.slots| <= |w.gf.slots| &&
    bJoin.cfg.loop == b.cfg.loop
  }

  /** A two-armed if_ in the finished function: test, arms, closing branches, continuation. */
  ghost predicate IfLaidOut(
      w: World, t: Code, f: Code, next: Code, ls: Locals,
      b: Builder, b1: Builder, b2: Builder, b3: Builder, b4: Builder, b5: Builder, test: seq<Ins>)
  {
    b.cfg.cur in b.cfg.code && Holds(w.gf, b.cfg.cur, |b.cfg.code[b.cfg.cur]|, test) &&
    Joined(w, t, ls, b1, TrueOf(b)) && Joined(w, f, ls, b3, FalseOf(b)) && Joined(w, next, ls, b5, MergeOf(b)) &&
    JoinsTo(w, b, b1) && JoinsTo(w, b, b3) && JoinsTo(w, b, b5) &&
    CloseHolds(w.gf, b2, MergeOf(b)) && CloseHolds(w.gf, b4, MergeOf(b))
  }

  /** A one-armed if_ in the finished function. */
  ghost predicate IfThenLaidOut(
      w: World, t: Code, next: Code, ls: Locals, b: Builder, b1: Builder, b2: Builder, b3: Builder, test: seq<Ins>)
  {
    b.cfg.cur in b.cfg.code && Holds(w.gf, b.cfg.cur, |b.cfg.code[b.cfg.cur]|, test) &&
    Joined(w, t, ls, b1, TrueOf(b)) && Joined(w, next, ls, b3, MergeOnlyOf(b)) &&
    JoinsTo(w, b, b1) && JoinsTo(w, b, b3) && CloseHolds(w.gf, b2, MergeOnlyOf(b))
  }

  /** A loop in the finished function: header, body with its own loop blocks, back edge, continuation. */
  ghost predicate LoopLaidOut(
      w: World, body: Code, next: Code, ls: Locals, b: Builder, b3: Builder, b5: Builder, b6: Builder, b7: Builder,
      header: seq<Ins>)
  {
    Holds(w.gf, ContinueOf(b), 0, header) &&
    Joined(w, body, ls, b5, IterationOf(b)) && b5.cfg.loop == InLoop(ContinueOf(b), BreakOf(b)) &&
    Joined(w, next, ls, b7, BreakOf(b)) && CloseHolds(w.gf, b6, ContinueOf(b)) && JoinsTo(w, b, b7) &&
    b.cfg.nextReg <= b3.cfg.nextReg && |b.cfg.slots| == |b3.cfg.slots| &&
    b.cfg.nextReg <= b5.cfg.nextReg && |b.cfg.slots| <= |b5.cfg.slots| <= |w.gf.slots|
  }
}
