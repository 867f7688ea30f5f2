/** The simulation proof proper: one lemma a statement form, by induction on creation order of
    functions, loop fuel, and the syntax tree. */
module Preservation {
  import opened Types
  import opened Memory
  import opened Source
  import opened Ir
  import opened Text
  import opened Lowering
  import opened Shapes
  import opened Growth
  import opened Agreement
  import opened Actions
  import opened Simulation

  // ----- straight-line statements -----

  lemma ActGoes(w: World, a: Action, next: Code, ls: Locals, st: SState, b: Builder, fr: Frame, ks: Stack, mem: Mem)
    returns (n: nat, fr1: Frame, mem1: Mem)
    requires WorldOk(w) && Ready(w, Act(a, next), ls, st, b, fr, mem) && Do(a, st).Some?
    ensures var ls1, st1, b1 := ActionLocals(a, ls, b), Do(a, st).value, LowerAction(a, ls, b);
            Goes(w.fns, n, fr, ks, mem, fr1, mem1) && FrameKept(fr, fr1, b.cfg.nextReg) &&
            MemKept(mem, mem1, st.heap, fr.base) && Ready(w, next, ls1, st1, b1, fr1, mem1) &&
            InnerScope(ls, st, b.cfg, ls1, st1, b1.cfg)
  {
    var ls1, st1, b1 := ActionLocals(a, ls, b), Do(a, st).value, LowerAction(a, ls, b);
    assert Lower(Act(a, next), ls, b) == LowerAct(a, next, ls, b);
    LowerActionShape(a, ls, b);
    LowerGrows(next, ls1, b1);
    IncludedGrows(b1.cfg, Lower(next, ls1, b1).cfg, w.gf);
    ActionAdvances(a, ls, st, b, w.gf.slots, fr, mem);
    var ops := ActionCode(a, ls, b.cfg.nextReg).ops;
    var ins := WithLoc(ops, ActionLoc(a, b));
    OpsOfWithLoc(ops, ActionLoc(a, b));
    n, fr1, mem1 := AppendedGoes(w, b.cfg, b1.cfg, ins, ops, fr, ks, mem);
    ActionScope(a, ls, st, b);
  }

  lemma ActionScope(a: Action, ls: Locals, st: SState, b: Builder)
    requires Do(a, st).Some?
    ensures var ls1, st1 := ActionLocals(a, ls, b), Do(a, st).value;
            ls.vals <= ls1.vals && ls.vars <= ls1.vars && st.env <= st1.env && |st.vars| <= |st1.vars|
  {}

  lemma AppendedGoes(w: World, g: Cfg, h: Cfg, ins: seq<Ins>, ops: seq<Op>, fr: Frame, ks: Stack, mem: Mem)
    returns (n: nat, fr1: Frame, mem1: Mem)
    requires WorldOk(w) && Extends(g, h, ins) && Included(h, w.gf) && AtEnd(w, fr, g) && OpsOf(ins) == ops
    requires RunOps(ops, fr.slots, Core(fr.regs, mem)).Some?
    ensures var k1 := RunOps(ops, fr.slots, Core(fr.regs, mem)).value;
            Goes(w.fns, n, fr, ks, mem, fr1, mem1) && AtEnd(w, fr1, h) && mem1 == k1.mem &&
            fr1 == fr.(pc := fr1.pc, regs := k1.regs)
  {
    AppendedHolds(g, h, ins, w.gf);
    forall j | 0 <= j < |ops|
      ensures ins[j].op == ops[j]
    {
      assert OpsOf(ins)[j] == ops[j];
    }
    StraightGoes(w, fr, ks, mem, g.cur, |g.code[g.cur]|, ins, ops);
    n := |ops|;
    fr1 := fr.(pc := fr.pc + |ops|, regs := RunOps(ops, fr.slots, Core(fr.regs, mem)).value.regs);
    mem1 := RunOps(ops, fr.slots, Core(fr.regs, mem)).value.mem;
  }

  // ----- entering a function -----

  lemma {:induction false} AllocasGo(w: World, m: nat, fr: Frame, ks: Stack, mem: Mem) returns (fr': Frame, mem': Mem)
    requires WorldOk(w) && m <= |w.gf.slots|
    requires fr.fn == w.k && fr.block == ENTRY && fr.pc == |w.gf.slots| - m
    requires PartFrame(w.gf.slots, m, fr.slots, fr.base, fr.sp, mem)
    ensures Goes(w.fns, m, fr, ks, mem, fr', mem') && AtPos(w, fr', ENTRY, 0)
    ensures fr'.regs == fr.regs && fr'.base == fr.base && fr'.dst == fr.dst
    ensures FrameOk(w.gf.slots, fr'.slots, fr'.base, fr'.sp, mem')
    ensures forall a :: a in mem ==> a in mem' && (a < fr.sp ==> mem'[a] == mem[a])
    decreases m
  {
    if m == 0 {
      fr', mem' := fr, mem;
    } else {
      var tys := w.gf.slots;
      var t := tys[m - 1];
      AllocaFetch(w, m, fr);
      OneStep(w.fns, fr, ks, mem, IAlloca(m - 1, t));
      var fr1 := fr.(pc := fr.pc + 1, slots := fr.slots[m - 1 := fr.sp], sp := fr.sp + Size(t));
      var mem1 := WriteLE(mem, fr.sp, Size(t), 0);
      WriteGrows(mem, fr.sp, Size(t), 0);
      AllocaStep(tys, m, fr.slots, fr.base, fr.sp, mem, mem1);
      fr', mem' := AllocasGo(w, m - 1, fr1, ks, mem1);
      GoesTrans(w.fns, 1, m - 1, ks, fr, mem, fr1, mem1, fr', mem');
    }
  }

  lemma AllocaFetch(w: World, m: nat, fr: Frame)
    requires WorldOk(w) && 1 <= m <= |w.gf.slots|
    requires fr.fn == w.k && fr.block == ENTRY && fr.pc == |w.gf.slots| - m
    ensures Fetch(w.fns, fr) == Some(IAlloca(m - 1, w.gf.slots[m - 1]))
  {
    assert w.fns[w.k].blocks[ENTRY][fr.pc] == AllocaPrefix(w.gf.slots)[fr.pc];
  }

  lemma AllocaStep(tys: seq<Ty>, m: nat, slots: Regs, base: nat, sp: nat, mem: Mem, mem1: Mem)
    requires 1 <= m <= |tys| && PartFrame(tys, m, slots, base, sp, mem)
    requires forall a :: a in mem1 <==> a in mem || sp <= a < sp + Size(tys[m - 1])
    ensures PartFrame(tys, m - 1, slots[m - 1 := sp], base, sp + Size(tys[m - 1]), mem1)
  {
    var slots1 := slots[m - 1 := sp];
    forall k | m - 1 <= k < |tys|
      ensures SlotOk(tys[k], k, slots1, base, sp + Size(tys[m - 1]), mem1)
    {
      if k >= m {
        assert SlotOk(tys[k], k, slots, base, sp, mem);
      }
    }
    forall j, k | m - 1 <= j < k < |tys|
      ensures Apart(slots1, j, tys[j], k, tys[k])
    {
      assert SlotOk(tys[k], k, slots, base, sp, mem);
      if j >= m {
        assert Apart(slots, j, tys[j], k, tys[k]);
      }
    }
  }

  function WorldOf(src: seq<FnDef>, fns: seq<Fn>, j: nat): World
    requires j < |src|
  {
    World(src, fns, j, BodyOf(src, j).cfg)
  }

  lemma WorldOfOk(src: seq<FnDef>, fns: seq<Fn>, j: nat)
    requires ProgramOk(src, fns) && j < |src|
    ensures WorldOk(WorldOf(src, fns, j))
  {
    BodyGrows(src, j);
    assert ENTRY in BeginFunction(src[j], Before(src, j)).cfg.code;
  }

  /** From a fresh frame, the allocas run and the body begins. */
  lemma EnterGoes(src: seq<FnDef>, fns: seq<Fn>, j: nat, vs: seq<SVal>, heap: Mem, sp: nat, dst: nat, ks: Stack,
      mem: Mem)
    returns (fr1: Frame, mem1: Mem)
    requires ProgramOk(src, fns) && j < |src| && src[j].params == ParamTypes(vs) && AllInRange(vs)
    requires HeapMatch(heap, mem, sp)
    ensures var w, fr := WorldOf(src, fns, j), Enter(j, Pats(vs), sp, dst);
            Goes(fns, |w.gf.slots|, fr, ks, mem, fr1, mem1) && FrameStart(fr, fr1) && MemKept(mem, mem1, heap, sp) &&
            Ready(w, src[j].body, Params(|vs|), SState(vs, [], heap), BeginFunction(src[j], Before(src, j)), fr1, mem1)
  {
    var w, fr := WorldOf(src, fns, j), Enter(j, Pats(vs), sp, dst);
    var b := BeginFunction(src[j], Before(src, j));
    WorldOfOk(src, fns, j);
    fr1, mem1 := AllocasGo(w, |w.gf.slots|, fr, ks, mem);
    BodyGrows(src, j);
    BeforeLoop(src, j);
    assert Included(w.gf, w.gf);
    ParamsMatch(vs, fr1.regs);
    assert b.cfg.code[ENTRY] == [];
  }

  predicate FrameStart(fr: Frame, fr1: Frame) { fr1.base == fr.base && fr1.dst == fr.dst }

  lemma ParamsMatch(vs: seq<SVal>, regs: Regs)
    requires AllInRange(vs) && regs == Enter(0, Pats(vs), 0, 0).regs
    ensures ValsMatch(Params(|vs|).vals, vs, regs, |vs|)
  {
    forall i | 0 <= i < |vs|
      ensures ValMatch(Params(|vs|).vals[i], vs[i], regs, |vs|)
    {
      assert Pats(vs)[i] == PatOf(vs[i].ty, vs[i].v);
    }
  }

  // ----- conditions of loops -----

  lemma AdvancesThen(tys: seq<Ty>, ops: seq<Op>, ops2: seq<Op>, ls1: Locals, ls2: Locals, st: SState, st1: SState,
      st2: SState,
                     nr: nat, nr1: nat, nr2: nat, ns: nat, fr: Frame, mem: Mem, k1: Core)
    requires Advances(tys, ops, ls1, st, st1, nr, nr1, ns, fr, mem)
    requires RunOps(ops, fr.slots, Core(fr.regs, mem)) == Some(k1)
    requires Advances(tys, ops2, ls2, st1, st2, nr1, nr2, ns, fr.(regs := k1.regs), k1.mem)
    ensures Advances(tys, ops + ops2, ls2, st, st2, nr, nr2, ns, fr, mem)
  {
    RunOpsAppend(ops, ops2, fr.slots, Core(fr.regs, mem));
  }

  /** The reads of a condition, one after the other. */
  lemma {:induction false} ReadsAdvance(rds: seq<Read>, ls: Locals, st: SState, b: Builder, tys: seq<Ty>, ns: nat,
      fr: Frame, mem: Mem)
    requires StateMatch(tys, ls, st, b.cfg.nextReg, ns, fr, mem) && DoReads(rds, st).Some?
    ensures var (b1, ls1) := LowerReads(rds, ls, b);
            Advances(tys, OpsOf(ReadsCode(rds, ls, b)), ls1, st, DoReads(rds, st).value, b.cfg.nextReg, b1.cfg.nextReg,
              ns, fr, mem)
    decreases |rds|
  {
    if rds == [] {
      assert fr.(regs := fr.regs) == fr;
      assert OpsOf(ReadsCode(rds, ls, b)) == [];
    } else {
      var c := ReadCode(rds[0], ls, b.cfg.nextReg);
      var b1, ls1, st1 := LowerRead(rds[0], ls, b), ReadLocals(rds[0], ls, b), DoRead(rds[0], st).value;
      ReadsCons(rds, ls, b);
      ReadAdvances(rds[0], ls, st, ReadName(rds[0], ls, b), tys, b.cfg.nextReg, ns, fr, mem);
      var k1 := After(c.ops, fr.slots, Core(fr.regs, mem));
      ReadsAdvance(rds[1..], ls1, st1, b1, tys, ns, fr.(regs := k1.regs), k1.mem);
      AdvancesThen(tys, c.ops, OpsOf(ReadsCode(rds[1..], ls1, b1)), ls1, LowerReads(rds[1..], ls1, b1).1, st, st1,
                   DoReads(rds, st).value, b.cfg.nextReg, c.next, LowerReads(rds[1..], ls1, b1).0.cfg.nextReg, ns, fr,
                   mem, k1);
    }
  }

  lemma {:induction false} DoReadsKeeps(rds: seq<Read>, st: SState)
    requires DoReads(rds, st).Some?
    ensures var st1 := DoReads(rds, st).value; st1.vars == st.vars && st1.heap == st.heap && st.env <= st1.env
    decreases |rds|
  {
    if rds != [] {
      DoReadsKeeps(rds[1..], DoRead(rds[0], st).value);
    }
  }

  lemma {:induction false} ReadsGrowLocals(rds: seq<Read>, ls: Locals, b: Builder)
    ensures var ls1 := LowerReads(rds, ls, b).1; ls.vals <= ls1.vals && ls1.vars == ls.vars
    decreases |rds|
  {
    if rds != [] {
      ReadsGrowLocals(rds[1..], ReadLocals(rds[0], ls, b), LowerRead(rds[0], ls, b));
    }
  }

  /** Run the reads of a condition, found as the first of the instructions `ins`; the outer scope
      still matches afterwards, and the inner one does too. */
  lemma ReadsGo(w: World, rds: seq<Read>, ls: Locals, st: SState, b: Builder, l: Label, i: nat, ins: seq<Ins>,
      fr: Frame, ks: Stack, mem: Mem)
    returns (n: nat, fr1: Frame, mem1: Mem)
    requires WorldOk(w) && StateMatch(w.gf.slots, ls, st, b.cfg.nextReg, |b.cfg.slots|, fr, mem) &&
             DoReads(rds, st).Some?
    requires Holds(w.gf, l, i, ins) && AtPos(w, fr, l, i) && ReadsCode(rds, ls, b) <= ins
    ensures var (b1, ls1) := LowerReads(rds, ls, b);
            Goes(w.fns, n, fr, ks, mem, fr1, mem1) && AtPos(w, fr1, l, i + |ReadsCode(rds, ls, b)|) &&
            StateMatch(w.gf.slots, ls1, DoReads(rds, st).value, b1.cfg.nextReg, |b.cfg.slots|, fr1, mem1) &&
            StateMatch(w.gf.slots, ls, st, b.cfg.nextReg, |b.cfg.slots|, fr1, mem1) &&
            FrameKept(fr, fr1, b.cfg.nextReg) && MemKept(mem, mem1, st.heap, fr.base)
  {
    var ops := OpsOf(ReadsCode(rds, ls, b));
    var (b1, ls1) := LowerReads(rds, ls, b);
    ReadsAdvance(rds, ls, st, b, w.gf.slots, |b.cfg.slots|, fr, mem);
    StraightGoes(w, fr, ks, mem, l, i, ins, ops);
    var k1 := After(ops, fr.slots, Core(fr.regs, mem));
    n, fr1, mem1 := |ops|, fr.(pc := fr.pc + |ops|, regs := k1.regs), k1.mem;
    DoReadsKeeps(rds, st);
    ReadsGrowLocals(rds, ls, b);
    var st1 := DoReads(rds, st).value;
    StateKept(w.gf.slots, ls1, st1, b1.cfg.nextReg, b1.cfg.nextReg, |b.cfg.slots|, fr.(regs := k1.regs), fr1, mem1);
    Restrict(w.gf.slots, ls, st, b.cfg.nextReg, |b.cfg.slots|, fr, mem, ls1, st1,
        b1.cfg.nextReg, |b.cfg.slots|, fr1, mem1);
    assert SState(st.env, st1.vars[..|st.vars|], st1.heap) == st;
  }

  // ----- two-armed and one-armed if_ -----

  /** After an arm has fallen through, its closing branch leads to the join block. */
  lemma ReachJoin(w: World, ls: Locals, st: SState, vars: seq<Cell>, heap: Mem, g: Cfg, bEnd: Builder, join: Label,
      gj: Cfg,
                  fr: Frame, ks: Stack, mem: Mem, n2: nat, fr2: Frame, mem2: Mem) returns (fr3: Frame)
    requires WorldOk(w) && !bEnd.cfg.exited && AtEnd(w, fr2, bEnd.cfg) && CloseHolds(w.gf, bEnd, join)
    requires Resumes(w, ls, st, vars, heap, g, fr, ks, mem, n2, fr2, mem2)
    requires g.nextReg <= gj.nextReg && |g.slots| <= |gj.slots| <= |w.gf.slots|
    ensures fr3.fn == fr2.fn && fr3.block == join && fr3.pc == 0
    ensures Goes(w.fns, n2 + 1, fr, ks, mem, fr3, mem2) && FrameKept(fr, fr3, g.nextReg) &&
            MemKept(mem, mem2, st.heap, fr.base)
    ensures |vars| >= |st.vars| && StateMatch(w.gf.slots, ls, Leave(st, vars, heap), gj.nextReg, |gj.slots|, fr3, mem2)
    ensures heap.Keys == st.heap.Keys
  {
    FallThrough(w, fr2, ks, mem2, bEnd, join);
    fr3 := fr2.(block := join, pc := 0);
    GoesTrans(w.fns, n2, 1, ks, fr, mem, fr2, mem2, fr3, mem2);
    StateWider(w.gf.slots, ls, Leave(st, vars, heap), g.nextReg, gj.nextReg, |g.slots|, |gj.slots|, fr2, fr3, mem2);
  }

  lemma JoinReady(w: World, next: Code, ls: Locals, st: SState, b: Builder, join: Label, fr: Frame, mem: Mem)
    requires Joined(w, next, ls, b, join) && StateMatch(w.gf.slots, ls, st, b.cfg.nextReg, |b.cfg.slots|, fr, mem)
    requires fr.fn == w.k && fr.block == join && fr.pc == 0
    ensures Ready(w, next, ls, st, b, fr, mem)
  {}

  lemma {:induction false} ThenNext(
      w: World, whole: Code, next: Code, fuel: nat, ls: Locals, st: SState, b: Builder, vars: seq<Cell>, heap: Mem,
      bEnd: Builder,
      bJoin: Builder, join: Label, fr: Frame, ks: Stack, mem: Mem, n2: nat, fr2: Frame, mem2: Mem)
    returns (n: nat, fr': Frame, mem': Mem)
    requires WorldOk(w) && ProgramOk(w.src, w.fns) && next < whole
    requires StateMatch(w.gf.slots, ls, st, b.cfg.nextReg, |b.cfg.slots|, fr, mem)
    requires !bEnd.cfg.exited && AtEnd(w, fr2, bEnd.cfg) && CloseHolds(w.gf, bEnd, join)
    requires Resumes(w, ls, st, vars, heap, b.cfg, fr, ks, mem, n2, fr2, mem2)
    requires JoinsTo(w, b, bJoin) && Joined(w, next, ls, bJoin, join)
    ensures |vars| >= |st.vars|
    ensures Simulated(w, Run(w.src, w.k, fuel, next, Leave(st, vars, heap)), fuel, ls, st,
                      b.cfg, Lower(next, ls, bJoin).cfg, fr, ks, mem, n, fr', mem')
    decreases w.k, fuel, whole, 1, 0
  {
    hide Simulated, StateMatch, Goes, MemKept, FrameKept, Holds, CloseHolds, Included, Run, Lower, HeaderIns, WorldOk,
         ProgramOk;
    var fr3 := ReachJoin(w, ls, st, vars, heap, b.cfg, bEnd, join, bJoin.cfg, fr, ks, mem, n2, fr2, mem2);
    var st2 := Leave(st, vars, heap);
    JoinReady(w, next, ls, st2, bJoin, join, fr3, mem2);
    var n4;
    n4, fr', mem' := Sim(w, next, fuel, ls, st2, bJoin, fr3, ks, mem2);
    Later(w, Run(w.src, w.k, fuel, next, st2), fuel, fuel, ls, st, b.cfg, ls, st2, bJoin.cfg,
        Lower(next, ls, bJoin).cfg,
          fr, ks, mem, n2 + 1, fr3, mem2, n4, fr', mem');
    n := n2 + 1 + n4;
  }

  lemma FallThrough(w: World, fr: Frame, ks: Stack, mem: Mem, bEnd: Builder, join: Label)
    requires WorldOk(w) && AtEnd(w, fr, bEnd.cfg) && CloseHolds(w.gf, bEnd, join) && !bEnd.cfg.exited
    ensures Goes(w.fns, 1, fr, ks, mem, fr.(block := join, pc := 0), mem)
  {
    var g := bEnd.cfg;
    var ins := [w.gf.code[g.cur][|g.code[g.cur]|]];
    BranchGoes(w, fr, ks, mem, g.cur, |g.code[g.cur]|, ins, join);
  }

  /** An outcome that leaves the arm by an exit leaves the whole statement. */
  lemma ExitsThrough(w: World, o: Outcome, fuel: nat, ls: Locals, st: SState, g: Cfg, g1: Cfg, g2: Cfg, g': Cfg,
                     fr: Frame, ks: Stack, mem: Mem, n1: nat, fr1: Frame, mem1: Mem, n2: nat, fr': Frame, mem': Mem)
    requires !o.Normal? && StateMatch(w.gf.slots, ls, st, g.nextReg, |g.slots|, fr, mem)
    requires Goes(w.fns, n1, fr, ks, mem, fr1, mem1) && FrameKept(fr, fr1, g.nextReg) &&
             MemKept(mem, mem1, st.heap, fr.base)
    requires g.nextReg <= g1.nextReg && g1.loop == g.loop
    requires Simulated(w, o, fuel, ls, st, g1, g2, fr1, ks, mem1, n2, fr', mem')
    ensures Simulated(w, o, fuel, ls, st, g, g', fr, ks, mem, n1 + n2, fr', mem')
  {
    Later(w, o, fuel, fuel, ls, st, g, ls, st, g1, g2, fr, ks, mem, n1, fr1, mem1, n2, fr', mem');
    AnyEnd(w, o, fuel, ls, st, g, g2, g', fr, ks, mem, n1 + n2, fr', mem');
  }

  lemma AnyEnd(w: World, o: Outcome, fuel: nat, ls: Locals, st: SState, g: Cfg, g2: Cfg, g': Cfg,
               fr: Frame, ks: Stack, mem: Mem, n: nat, fr': Frame, mem': Mem)
    requires !o.Normal? && Simulated(w, o, fuel, ls, st, g, g2, fr, ks, mem, n, fr', mem')
    ensures Simulated(w, o, fuel, ls, st, g, g', fr, ks, mem, n, fr', mem')
  {}

  /** One arm of an if_, from the test on. */
  lemma {:induction false} SimArm(
      w: World, whole: Code, arm: Code, next: Code, fuel: nat, ls: Locals, st: SState, b: Builder, bArm: Builder,
      bJoin: Builder, join: Label, fr: Frame, ks: Stack, mem: Mem, n1: nat, fr1: Frame)
    returns (n: nat, fr': Frame, mem': Mem)
    requires WorldOk(w) && ProgramOk(w.src, w.fns) && next < whole && arm < whole
    requires StateMatch(w.gf.slots, ls, st, b.cfg.nextReg, |b.cfg.slots|, fr, mem)
    requires Goes(w.fns, n1, fr, ks, mem, fr1, mem) && FrameKept(fr, fr1, b.cfg.nextReg)
    requires Ready(w, arm, ls, st, bArm, fr1, mem) && b.cfg.nextReg <= bArm.cfg.nextReg && bArm.cfg.loop == b.cfg.loop
    requires JoinsTo(w, b, bJoin) && CloseHolds(w.gf, Lower(arm, ls, bArm), join) && Joined(w, next, ls, bJoin, join)
    ensures Simulated(w, AfterArm(w.src, w.k, fuel, Run(w.src, w.k, fuel, arm, st), next, st), fuel, ls, st,
                      b.cfg, Lower(next, ls, bJoin).cfg, fr, ks, mem, n, fr', mem')
    decreases w.k, fuel, whole, 2, 0
  {
    hide Simulated, StateMatch, Goes, MemKept, FrameKept, Holds, CloseHolds, Included, Run, Lower, HeaderIns, WorldOk,
         ProgramOk;
    var n2, fr2, mem2 := Sim(w, arm, fuel, ls, st, bArm, fr1, ks, mem);
    n, fr', mem' := FinishArm(w, whole, Run(w.src, w.k, fuel, arm, st), next, fuel, ls, st, b, bArm.cfg,
        Lower(arm, ls, bArm),
                              bJoin, join, fr, ks, mem, n1, fr1, n2, fr2, mem2);
  }

  lemma {:induction false} FinishArm(
      w: World, whole: Code, a: Outcome, next: Code, fuel: nat, ls: Locals, st: SState, b: Builder, g1: Cfg,
      bEnd: Builder,
      bJoin: Builder, join: Label, fr: Frame, ks: Stack, mem: Mem, n1: nat, fr1: Frame, n2: nat, fr2: Frame, mem2: Mem)
    returns (n: nat, fr': Frame, mem': Mem)
    requires WorldOk(w) && ProgramOk(w.src, w.fns) && next < whole && Scoped(a, |st.vars|)
    requires StateMatch(w.gf.slots, ls, st, b.cfg.nextReg, |b.cfg.slots|, fr, mem)
    requires Goes(w.fns, n1, fr, ks, mem, fr1, mem) && FrameKept(fr, fr1, b.cfg.nextReg)
    requires b.cfg.nextReg <= g1.nextReg && g1.loop == b.cfg.loop
    requires Simulated(w, a, fuel, ls, st, g1, bEnd.cfg, fr1, ks, mem, n2, fr2, mem2)
    requires JoinsTo(w, b, bJoin) && CloseHolds(w.gf, bEnd, join) && Joined(w, next, ls, bJoin, join)
    ensures Simulated(w, AfterArm(w.src, w.k, fuel, a, next, st), fuel, ls, st,
                      b.cfg, Lower(next, ls, bJoin).cfg, fr, ks, mem, n, fr', mem')
    decreases w.k, fuel, whole, 1, 1
  {
    hide Simulated, StateMatch, Goes, MemKept, FrameKept, Holds, CloseHolds, Included, Run, Lower, HeaderIns, WorldOk,
         ProgramOk;
    match a
    case Normal(vars, heap) =>
      Later(w, a, fuel, fuel, ls, st, b.cfg, ls, st, g1, bEnd.cfg, fr, ks, mem, n1, fr1, mem, n2, fr2, mem2);
      n, fr', mem' := ThenNext(w, whole, next, fuel, ls, st, b, vars, heap, bEnd, bJoin, join, fr, ks, mem, n1 + n2,
          fr2, mem2);
    case _ =>
      ExitsThrough(w, a, fuel, ls, st, b.cfg, g1, bEnd.cfg, Lower(next, ls, bJoin).cfg,
                   fr, ks, mem, n1, fr1, mem, n2, fr2, mem2);
      n, fr', mem' := n1 + n2, fr2, mem2;
  }

  lemma CloseAnywhere(w: World, bEnd: Builder, g': Cfg, join: Label, l: Label, parent: Scope)
    requires Moves(bEnd.cfg, g', CloseIns(bEnd, join, parent), l) && Included(g', w.gf)
    ensures CloseHolds(w.gf, bEnd, join) && Included(bEnd.cfg, w.gf)
  {
    var g, ins := bEnd.cfg, CloseIns(bEnd, join, parent);
    IncludedMoves(g, g', ins, l, w.gf);
    if !g.exited {
      assert w.gf.code[g.cur][|g.code[g.cur]|..|g.code[g.cur]| + |ins|][0] == ins[0];
    }
  }

  /** Where the parts of a two-armed if_ are in the finished function. */
  lemma IfParts(w: World, e: Expr, t: Code, f: Code, next: Code, ls: Locals, b: Builder)
    requires Sane(b.cfg) && !b.cfg.exited && LoopOk(If(e, t, f, next), b.cfg.loop.InLoop?)
    requires Included(LowerIf(e, t, f, next, ls, b).cfg, w.gf)
    ensures var b1 := IfHead(e, ls, b);
            var b2 := Lower(t, ls, b1);
            var b3 := IfElse(b, b2);
            var b4 := Lower(f, ls, b3);
            var b5 := IfEnd(b, b4);
            IfLaidOut(w, t, f, next, ls, b, b1, b2, b3, b4, b5, TestIns(e, ls, b, TrueOf(b), FalseOf(b)))
  {
    var b1 := IfHead(e, ls, b);
    IfHeadSane(e, ls, b);
    LowerGrows(t, ls, b1);
    var b2 := Lower(t, ls, b1);
    FirstArmShape(e, ls, b, b2);
    IfPartsRest(w, t, f, next, ls, b, b1, b2, IfElse(b, b2), TestIns(e, ls, b, TrueOf(b), FalseOf(b)));
  }

  lemma IfPartsRest(w: World, t: Code, f: Code, next: Code, ls: Locals, b: Builder, b1: Builder, b2: Builder,
      b3: Builder, ins: seq<Ins>)
    requires Sane(b.cfg) && !b.cfg.exited && FirstArm(b, b1, b2, b3, ins) && b2 == Lower(t, ls, b1)
    requires LoopOk(t, b.cfg.loop.InLoop?) && LoopOk(f, b.cfg.loop.InLoop?) && LoopOk(next, b.cfg.loop.InLoop?)
    requires Included(Lower(next, ls, IfEnd(b, Lower(f, ls, b3))).cfg, w.gf)
    ensures IfLaidOut(w, t, f, next, ls, b, b1, b2, b3, Lower(f, ls, b3), IfEnd(b, Lower(f, ls, b3)), ins)
  {
    hide Lower, LoopOk, IfEnd, Joined, JoinsTo, CloseHolds, Included, Holds, SecondArm, Grows;
    SecondArmStart(b, b1, b2, b3, ins);
    LowerGrows(f, ls, b3);
    var b4 := Lower(f, ls, b3);
    SecondArmShape(b, b1, b2, b3, ins, b4);
    ArmLoop(b, b1, b2, b3, ins);
    SecondPart(w, f, next, ls, b, b3);
    FirstPart(w, t, ls, b, b1, b3, ins);
  }

  lemma ArmLoop(b: Builder, b1: Builder, b2: Builder, b3: Builder, ins: seq<Ins>)
    requires FirstArm(b, b1, b2, b3, ins)
    ensures b3.cfg.loop == b.cfg.loop && !b3.cfg.exited
  {}

  /** From the second arm on. */
  lemma SecondPart(w: World, f: Code, next: Code, ls: Locals, b: Builder, b3: Builder)
    requires Sane(b.cfg) && SecondArm(b, b3, Lower(f, ls, b3), IfEnd(b, Lower(f, ls, b3)))
    requires !b3.cfg.exited && b3.cfg.loop == b.cfg.loop
    requires LoopOk(f, b.cfg.loop.InLoop?) && LoopOk(next, b.cfg.loop.InLoop?)
    requires Included(Lower(next, ls, IfEnd(b, Lower(f, ls, b3))).cfg, w.gf)
    ensures var b4 := Lower(f, ls, b3);
            var b5 := IfEnd(b, b4);
            Joined(w, f, ls, b3, FalseOf(b)) && Joined(w, next, ls, b5, MergeOf(b)) && JoinsTo(w, b, b3) &&
            JoinsTo(w, b, b5) &&
            CloseHolds(w.gf, b4, MergeOf(b)) && Included(b3.cfg, w.gf)
  {
    hide Lower, LoopOk, IfEnd;
    var b4 := Lower(f, ls, b3);
    var b5 := IfEnd(b, b4);
    LowerGrows(next, ls, b5);
    IncludedGrows(b5.cfg, Lower(next, ls, b5).cfg, w.gf);
    CloseAnywhere(w, b4, b5.cfg, MergeOf(b), MergeOf(b), b.scope);
    IncludedGrows(b3.cfg, b4.cfg, w.gf);
  }

  /** Up to the second arm. */
  lemma FirstPart(w: World, t: Code, ls: Locals, b: Builder, b1: Builder, b3: Builder, ins: seq<Ins>)
    requires Sane(b.cfg) && !b.cfg.exited && FirstArm(b, b1, Lower(t, ls, b1), b3, ins) && LoopOk(t, b.cfg.loop.InLoop?)
    requires Included(b3.cfg, w.gf)
    ensures var b2 := Lower(t, ls, b1);
            b.cfg.cur in b.cfg.code && Holds(w.gf, b.cfg.cur, |b.cfg.code[b.cfg.cur]|, ins) &&
            Joined(w, t, ls, b1, TrueOf(b)) && JoinsTo(w, b, b1) && CloseHolds(w.gf, b2, MergeOf(b))
  {
    hide Lower, LoopOk;
    var b2 := Lower(t, ls, b1);
    CloseAnywhere(w, b2, b3.cfg, MergeOf(b), FalseOf(b), b.scope);
    IncludedGrows(b1.cfg, b2.cfg, w.gf);
    BranchHolds(w.gf, b.cfg, b1.cfg, ins, {TrueOf(b), FalseOf(b), MergeOf(b)});
  }

  lemma BranchHolds(gf: Cfg, g: Cfg, h: Cfg, ins: seq<Ins>, made: set<Label>)
    requires Sane(g) && Branches(g, h, ins, made) && Included(h, gf)
    ensures Holds(gf, g.cur, |g.code[g.cur]|, ins)
  {
    assert h.code[g.cur] == g.code[g.cur] + ins <= gf.code[g.cur];
    PrefixHolds(gf, g.cur, g.code[g.cur], ins);
  }

  lemma {:induction false} SimIf(
      w: World, fuel: nat, e: Expr, t: Code, f: Code, next: Code, ls: Locals, st: SState, b: Builder, fr: Frame,
      ks: Stack, mem: Mem)
    returns (n: nat, fr': Frame, mem': Mem)
    requires WorldOk(w) && ProgramOk(w.src, w.fns) && Ready(w, If(e, t, f, next), ls, st, b, fr, mem)
    requires EvalTest(e, st.env).Some?
    ensures var arm := if EvalTest(e, st.env).value then t else f;
            Simulated(w, AfterArm(w.src, w.k, fuel, Run(w.src, w.k, fuel, arm, st), next, st), fuel, ls, st,
                      b.cfg, LowerIf(e, t, f, next, ls, b).cfg, fr, ks, mem, n, fr', mem')
    decreases w.k, fuel, If(e, t, f, next), 3, 0
  {
    IfParts(w, e, t, f, next, ls, b);
    TestOps(e, ls, b, TrueOf(b), FalseOf(b));
    var n1, fr1 := TestGoes(w, e, ls, st, b.cfg, TestIns(e, ls, b, TrueOf(b), FalseOf(b)), TrueOf(b), FalseOf(b),
                            fr, ks, mem, b.cfg.cur, |b.cfg.code[b.cfg.cur]|);
    n, fr', mem' := SimArms(w, fuel, If(e, t, f, next), t, f, next, ls, st, b, IfHead(e, ls, b),
                            IfElse(b, Lower(t, ls, IfHead(e, ls, b))),
                            IfEnd(b, Lower(f, ls, IfElse(b, Lower(t, ls, IfHead(e, ls, b))))),
                            TestIns(e, ls, b, TrueOf(b), FalseOf(b)), EvalTest(e, st.env).value, fr, ks, mem, n1, fr1);
  }

  lemma {:induction false} SimArms(
      w: World, fuel: nat, whole: Code, t: Code, f: Code, next: Code, ls: Locals, st: SState, b: Builder, b1: Builder,
      b3: Builder,
      b5: Builder, ins: seq<Ins>, v: bool, fr: Frame, ks: Stack, mem: Mem, n1: nat, fr1: Frame)
    returns (n: nat, fr': Frame, mem': Mem)
    requires WorldOk(w) && ProgramOk(w.src, w.fns) && t < whole && f < whole && next < whole
    requires StateMatch(w.gf.slots, ls, st, b.cfg.nextReg, |b.cfg.slots|, fr, mem)
    requires IfLaidOut(w, t, f, next, ls, b, b1, Lower(t, ls, b1), b3, Lower(f, ls, b3), b5, ins)
    requires Goes(w.fns, n1, fr, ks, mem, fr1, mem) && FrameKept(fr, fr1, b.cfg.nextReg) && fr.fn == w.k
    requires fr1.block == (if v then TrueOf(b) else FalseOf(b)) && fr1.pc == 0
    ensures Simulated(w, AfterArm(w.src, w.k, fuel, Run(w.src, w.k, fuel, if v then t else f, st), next, st),
            fuel, ls, st,
                      b.cfg, Lower(next, ls, b5).cfg, fr, ks, mem, n, fr', mem')
    decreases w.k, fuel, whole, 2, 1
  {
    var bArm, arm, l := if v then b1 else b3, if v then t else f, if v then TrueOf(b) else FalseOf(b);
    StateWider(w.gf.slots, ls, st, b.cfg.nextReg, bArm.cfg.nextReg, |b.cfg.slots|, |bArm.cfg.slots|, fr, fr1, mem);
    JoinReady(w, arm, ls, st, bArm, l, fr1, mem);
    n, fr', mem' := SimArm(w, whole, arm, next, fuel, ls, st, b, bArm, b5, MergeOf(b), fr, ks, mem, n1, fr1);
  }

  lemma IfThenParts(w: World, e: Expr, t: Code, next: Code, ls: Locals, b: Builder)
    requires Sane(b.cfg) && !b.cfg.exited && LoopOk(IfThen(e, t, next), b.cfg.loop.InLoop?)
    requires Included(LowerIfThen(e, t, next, ls, b).cfg, w.gf)
    ensures var b1 := IfThenHead(e, ls, b);
            var b2 := Lower(t, ls, b1);
            IfThenLaidOut(w, t, next, ls, b, b1, b2, IfThenEnd(b, b2), TestIns(e, ls, b, TrueOf(b), MergeOnlyOf(b)))
  {
    var b1 := IfThenHead(e, ls, b);
    IfThenHeadShape(e, ls, b);
    LowerGrows(t, ls, b1);
    IfThenPartsRest(w, t, next, ls, b, b1, Lower(t, ls, b1), TestIns(e, ls, b, TrueOf(b), MergeOnlyOf(b)));
  }

  lemma IfThenPartsRest(w: World, t: Code, next: Code, ls: Locals, b: Builder, b1: Builder, b2: Builder, ins: seq<Ins>)
    requires Sane(b.cfg) && !b.cfg.exited && Branches(b.cfg, b1.cfg, ins, {TrueOf(b), MergeOnlyOf(b)})
    requires b1.cfg.cur == TrueOf(b) && b1.cfg.loop == b.cfg.loop && Sane(b2.cfg) && Grows(b1.cfg, b2.cfg) &&
             b2 == Lower(t, ls, b1)
    requires LoopOk(t, b.cfg.loop.InLoop?) && LoopOk(next, b.cfg.loop.InLoop?)
    requires Included(Lower(next, ls, IfThenEnd(b, b2)).cfg, w.gf)
    ensures IfThenLaidOut(w, t, next, ls, b, b1, b2, IfThenEnd(b, b2), ins)
  {
    StillEmpty(b1.cfg, b2.cfg, MergeOnlyOf(b));
    IfThenEndShape(b, b2);
    var b3 := IfThenEnd(b, b2);
    BranchMoves(b.cfg, b1.cfg, b2.cfg, b3.cfg, ins, {TrueOf(b), MergeOnlyOf(b)}, CloseIns(b2, MergeOnlyOf(b), b.scope),
        MergeOnlyOf(b));
    LowerGrows(next, ls, b3);
    IncludedGrows(b3.cfg, Lower(next, ls, b3).cfg, w.gf);
    CloseAnywhere(w, b2, b3.cfg, MergeOnlyOf(b), MergeOnlyOf(b), b.scope);
    IncludedGrows(b1.cfg, b2.cfg, w.gf);
    BranchHolds(w.gf, b.cfg, b1.cfg, ins, {TrueOf(b), MergeOnlyOf(b)});
  }

  /** From a join block reached directly. */
  lemma {:induction false} SimAtJoin(
      w: World, whole: Code, next: Code, fuel: nat, ls: Locals, st: SState, st2: SState, b: Builder, bJoin: Builder,
      join: Label,
      fr: Frame, ks: Stack, mem: Mem, n1: nat, fr1: Frame, mem1: Mem)
    returns (n: nat, fr': Frame, mem': Mem)
    requires WorldOk(w) && ProgramOk(w.src, w.fns) && next < whole
    requires StateMatch(w.gf.slots, ls, st, b.cfg.nextReg, |b.cfg.slots|, fr, mem)
    requires Goes(w.fns, n1, fr, ks, mem, fr1, mem1) && FrameKept(fr, fr1, b.cfg.nextReg) &&
             MemKept(mem, mem1, st.heap, fr.base)
    requires StateMatch(w.gf.slots, ls, st2, b.cfg.nextReg, |b.cfg.slots|, fr1, mem1)
    requires InnerScope(ls, st, b.cfg, ls, st2, bJoin.cfg) && fr1.fn == w.k && fr1.block == join && fr1.pc == 0
    requires JoinsTo(w, b, bJoin) && Joined(w, next, ls, bJoin, join)
    ensures Simulated(w, Run(w.src, w.k, fuel, next, st2), fuel, ls, st,
                      b.cfg, Lower(next, ls, bJoin).cfg, fr, ks, mem, n, fr', mem')
    decreases w.k, fuel, whole, 1, 0
  {
    hide Simulated, StateMatch, Goes, MemKept, FrameKept, Holds, CloseHolds, Included, Run, Lower, HeaderIns, WorldOk,
         ProgramOk;
    StateWider(w.gf.slots, ls, st2, b.cfg.nextReg, bJoin.cfg.nextReg, |b.cfg.slots|, |bJoin.cfg.slots|, fr1, fr1, mem1);
    JoinReady(w, next, ls, st2, bJoin, join, fr1, mem1);
    var n2;
    n2, fr', mem' := Sim(w, next, fuel, ls, st2, bJoin, fr1, ks, mem1);
    Later(w, Run(w.src, w.k, fuel, next, st2), fuel, fuel, ls, st, b.cfg, ls, st2, bJoin.cfg,
        Lower(next, ls, bJoin).cfg,
          fr, ks, mem, n1, fr1, mem1, n2, fr', mem');
    n := n1 + n2;
  }

  lemma {:induction false} SimIfThen(
      w: World, fuel: nat, e: Expr, t: Code, next: Code, ls: Locals, st: SState, b: Builder, fr: Frame, ks: Stack,
      mem: Mem)
    returns (n: nat, fr': Frame, mem': Mem)
    requires WorldOk(w) && ProgramOk(w.src, w.fns) && Ready(w, IfThen(e, t, next), ls, st, b, fr, mem)
    requires EvalTest(e, st.env).Some?
    ensures var o := if EvalTest(e, st.env).value then
            AfterArm(w.src, w.k, fuel, Run(w.src, w.k, fuel, t, st), next, st)
                     else Run(w.src, w.k, fuel, next, st);
            Simulated(w, o, fuel, ls, st, b.cfg, LowerIfThen(e, t, next, ls, b).cfg, fr, ks, mem, n, fr', mem')
    decreases w.k, fuel, IfThen(e, t, next), 3, 0
  {
    IfThenParts(w, e, t, next, ls, b);
    TestOps(e, ls, b, TrueOf(b), MergeOnlyOf(b));
    var n1, fr1 := TestGoes(w, e, ls, st, b.cfg, TestIns(e, ls, b, TrueOf(b), MergeOnlyOf(b)), TrueOf(b),
        MergeOnlyOf(b),
                            fr, ks, mem, b.cfg.cur, |b.cfg.code[b.cfg.cur]|);
    n, fr', mem' := SimOneArm(w, fuel, IfThen(e, t, next), t, next, ls, st, b, IfThenHead(e, ls, b),
                              IfThenEnd(b, Lower(t, ls, IfThenHead(e, ls, b))),
                              TestIns(e, ls, b, TrueOf(b), MergeOnlyOf(b)), EvalTest(e, st.env).value, fr, ks, mem, n1,
                              fr1);
  }

  lemma {:induction false} SimOneArm(
      w: World, fuel: nat, whole: Code, t: Code, next: Code, ls: Locals, st: SState, b: Builder, b1: Builder,
      b3: Builder,
      ins: seq<Ins>, v: bool, fr: Frame, ks: Stack, mem: Mem, n1: nat, fr1: Frame)
    returns (n: nat, fr': Frame, mem': Mem)
    requires WorldOk(w) && ProgramOk(w.src, w.fns) && t < whole && next < whole
    requires StateMatch(w.gf.slots, ls, st, b.cfg.nextReg, |b.cfg.slots|, fr, mem)
    requires IfThenLaidOut(w, t, next, ls, b, b1, Lower(t, ls, b1), b3, ins)
    requires Goes(w.fns, n1, fr, ks, mem, fr1, mem) && FrameKept(fr, fr1, b.cfg.nextReg) && fr.fn == w.k
    requires fr1.block == (if v then TrueOf(b) else MergeOnlyOf(b)) && fr1.pc == 0
    ensures Simulated(w, if v then AfterArm(w.src, w.k, fuel, Run(w.src, w.k, fuel, t, st), next, st)
                         else Run(w.src, w.k, fuel, next, st), fuel, ls, st,
                      b.cfg, Lower(next, ls, b3).cfg, fr, ks, mem, n, fr', mem')
    decreases w.k, fuel, whole, 2, 1
  {
    hide Simulated, StateMatch, Goes, Run, Lower, HeaderIns, WorldOk, ProgramOk, CloseHolds, Holds, Included;
    if v {
      StateWider(w.gf.slots, ls, st, b.cfg.nextReg, b1.cfg.nextReg, |b.cfg.slots|, |b1.cfg.slots|, fr, fr1, mem);
      JoinReady(w, t, ls, st, b1, TrueOf(b), fr1, mem);
      n, fr', mem' := SimArm(w, whole, t, next, fuel, ls, st, b, b1, b3, MergeOnlyOf(b), fr, ks, mem, n1, fr1);
    } else {
      StateWider(w.gf.slots, ls, st, b.cfg.nextReg, b.cfg.nextReg, |b.cfg.slots|, |b.cfg.slots|, fr, fr1, mem);
      n, fr', mem' := SimAtJoin(w, whole, next, fuel, ls, st, st, b, b3, MergeOnlyOf(b), fr, ks, mem, n1, fr1, mem);
    }
  }

  // ----- while_ -----

  lemma HoldsSplit(gf: Cfg, l: Label, i: nat, xs: seq<Ins>, ys: seq<Ins>)
    requires Holds(gf, l, i, xs + ys)
    ensures Holds(gf, l, i + |xs|, ys)
  {
    assert (xs + ys)[|xs|..] == ys;
  }

  /** Where the parts of a loop are in the finished function. */
  lemma WhileParts(w: World, cnd: Cond, body: Code, next: Code, ls: Locals, b: Builder)
    requires Sane(b.cfg) && !b.cfg.exited && LoopOk(While(cnd, body, next), b.cfg.loop.InLoop?)
    requires Included(LowerWhile(cnd, body, next, ls, b).cfg, w.gf)
    ensures var b3 := WhileEntry(cnd, ls, b);
            var b5 := WhileTest(cnd, ls, b, b3);
            var b6 := Lower(body, ls, b5);
            b.cfg.cur in b.cfg.code && Holds(w.gf, b.cfg.cur, |b.cfg.code[b.cfg.cur]|, EntryIns(cnd, ls, b)) &&
            LoopLaidOut(w, body, next, ls, b, b3, b5, b6, WhileEnd(b, b6), HeaderIns(cnd, ls, b, b3))
  {
    var b3 := WhileEntry(cnd, ls, b);
    WhileEntryShape(cnd, ls, b);
    WhileTestShape(cnd, ls, b, b3);
    var b5 := WhileHeadGrows(cnd, ls, b);
    WhilePartsRest(w, body, next, ls, b, b3, b5, EntryIns(cnd, ls, b), HeaderIns(cnd, ls, b, b3));
  }

  lemma WhilePartsRest(w: World, body: Code, next: Code, ls: Locals, b: Builder, b3: Builder, b5: Builder,
      entry: seq<Ins>, header: seq<Ins>)
    requires Sane(b.cfg) && !b.cfg.exited && LoopOk(body, true) && LoopOk(next, b.cfg.loop.InLoop?)
    requires Branches(b.cfg, b3.cfg, entry, {ContinueOf(b), IterationOf(b), BreakOf(b)}) && b3.cfg.cur == ContinueOf(b)
    requires b5.cfg.code == b3.cfg.code[ContinueOf(b) := b3.cfg.code[ContinueOf(b)] + header] &&
             b3.cfg.nextReg <= b5.cfg.nextReg
    requires LoopOpened(b, b5) && Included(Lower(next, ls, WhileEnd(b, Lower(body, ls, b5))).cfg, w.gf)
    ensures b.cfg.cur in b.cfg.code && Holds(w.gf, b.cfg.cur, |b.cfg.code[b.cfg.cur]|, entry)
    ensures LoopLaidOut(w, body, next, ls, b, b3, b5, Lower(body, ls, b5), WhileEnd(b, Lower(body, ls, b5)), header)
  {
    LowerGrows(body, ls, b5);
    var b6 := Lower(body, ls, b5);
    WhileGrowsRest(b, b5, b6);
    var b7 := WhileEnd(b, b6);
    LowerGrows(next, ls, b7);
    IncludedGrows(b7.cfg, Lower(next, ls, b7).cfg, w.gf);
    CloseAnywhere(w, b6, b7.cfg, ContinueOf(b), BreakOf(b), b.scope);
    IncludedGrows(b5.cfg, b6.cfg, w.gf);
    EntryHolds(w.gf, b.cfg, b3.cfg, b5.cfg, entry, {ContinueOf(b), IterationOf(b), BreakOf(b)}, header);
  }

  lemma EntryHolds(gf: Cfg, g: Cfg, g3: Cfg, g5: Cfg, entry: seq<Ins>, made: set<Label>, header: seq<Ins>)
    requires Sane(g) && Branches(g, g3, entry, made) && Included(g5, gf)
    requires g5.code == g3.code[g3.cur := g3.code[g3.cur] + header]
    ensures Holds(gf, g.cur, |g.code[g.cur]|, entry) && Holds(gf, g3.cur, 0, header)
  {
    assert g5.code[g.cur] == g.code[g.cur] + entry <= gf.code[g.cur];
    PrefixHolds(gf, g.cur, g.code[g.cur], entry);
    assert g5.code[g3.cur] == [] + header <= gf.code[g3.cur];
    PrefixHolds(gf, g3.cur, [], header);
  }

  /** The condition generated before the loop runs its reads and drops them. */
  lemma EntryGoes(w: World, cnd: Cond, ls: Locals, st: SState, b: Builder, fr: Frame, ks: Stack, mem: Mem)
    returns (n: nat, fr1: Frame, mem1: Mem)
    requires WorldOk(w) && AtEnd(w, fr, b.cfg) && Holds(w.gf, b.cfg.cur, |b.cfg.code[b.cfg.cur]|, EntryIns(cnd, ls, b))
    requires StateMatch(w.gf.slots, ls, st, b.cfg.nextReg, |b.cfg.slots|, fr, mem) && DoReads(cnd.first, st).Some?
    ensures Goes(w.fns, n, fr, ks, mem, fr1, mem1) && FrameKept(fr, fr1, b.cfg.nextReg) &&
            MemKept(mem, mem1, st.heap, fr.base)
    ensures StateMatch(w.gf.slots, ls, st, b.cfg.nextReg, |b.cfg.slots|, fr1, mem1)
    ensures fr1.fn == w.k && fr1.block == ContinueOf(b) && fr1.pc == 0
  {
    hide StateMatch, Included, ReadsCode, LowerReads, WorldOk, SameBelow;
    var b0 := SetLoc(b, CurrentLine(b) + 1, b.scope);
    var l, i, ins := b.cfg.cur, |b.cfg.code[b.cfg.cur]|, EntryIns(cnd, ls, b);
    var rd := ReadsCode(cnd.first, ls, b0);
    var n1, fr0, mem0 := ReadsGo(w, cnd.first, ls, st, b0, l, i, ins, fr, ks, mem);
    var last := [Ins(IBr(ContinueOf(b)), LowerReads(cnd.first, ls, b0).0.cfg.loc)];
    HoldsSplit(w.gf, l, i, rd, last);
    BranchGoes(w, fr0, ks, mem0, l, i + |rd|, last, ContinueOf(b));
    fr1, mem1 := fr0.(block := ContinueOf(b), pc := 0), mem0;
    GoesTrans(w.fns, n1, 1, ks, fr, mem, fr0, mem0, fr1, mem1);
    StateKept(w.gf.slots, ls, st, b.cfg.nextReg, b.cfg.nextReg, |b.cfg.slots|, fr0, fr1, mem1);
    n := n1 + 1;
  }

  /** The loop header tests the condition in the current state. */
  lemma HeaderGoes(w: World, cnd: Cond, ls: Locals, st: SState, b: Builder, b3: Builder, fr: Frame, ks: Stack, mem: Mem)
    returns (n: nat, fr1: Frame, mem1: Mem)
    requires WorldOk(w) && fr.fn == w.k && fr.block == ContinueOf(b) && fr.pc == 0
    requires Holds(w.gf, ContinueOf(b), 0, HeaderIns(cnd, ls, b, b3)) && |b.cfg.slots| == |b3.cfg.slots|
    requires StateMatch(w.gf.slots, ls, st, b.cfg.nextReg, |b.cfg.slots|, fr, mem) && b.cfg.nextReg <= b3.cfg.nextReg
    requires EvalCond(cnd, st).Some?
    ensures n >= 1 && Goes(w.fns, n, fr, ks, mem, fr1, mem1) && FrameKept(fr, fr1, b.cfg.nextReg) &&
            MemKept(mem, mem1, st.heap, fr.base)
    ensures StateMatch(w.gf.slots, ls, st, b.cfg.nextReg, |b.cfg.slots|, fr1, mem1)
    ensures fr1.fn == w.k && fr1.block == (if EvalCond(cnd, st).value then IterationOf(b) else BreakOf(b)) &&
            fr1.pc == 0
  {
    hide Included, WorldOk, Holds, ReadsCode, Emitted, ValsMatch, FrameOk, HeapMatch, SameBelow, MemKept, Eval, DoReads;
    var l, ins := ContinueOf(b), HeaderIns(cnd, ls, b, b3);
    var rd := ReadsCode(cnd.first, ls, b3);
    StateWider(w.gf.slots, ls, st, b.cfg.nextReg, b3.cfg.nextReg, |b.cfg.slots|, |b3.cfg.slots|, fr, fr, mem);
    var n1, fr0, mem0 := ReadsGo(w, cnd.first, ls, st, b3, l, 0, ins, fr, ks, mem);
    var (b4, ls4) := LowerReads(cnd.first, ls, b3);
    var c := Emitted(cnd.test, ls4.vals, b4.cfg.nextReg);
    var test := WithLoc(c.ops + [ICondBr(c.res, IterationOf(b), BreakOf(b))], b4.cfg.loc);
    HoldsSplit(w.gf, l, 0, rd, test);
    OpsOfWithLoc(c.ops + [ICondBr(c.res, IterationOf(b), BreakOf(b))], b4.cfg.loc);
    var n2;
    n2, fr1 := TestGoes(w, cnd.test, ls4, DoReads(cnd.first, st).value, b4.cfg, test, IterationOf(b), BreakOf(b),
                        fr0, ks, mem0, l, |rd|);
    mem1 := mem0;
    GoesTrans(w.fns, n1, n2, ks, fr, mem, fr0, mem0, fr1, mem1);
    HeaderKept(w, cnd, ls, st, b, b3, fr, fr0, fr1, mem, mem0);
    n := n1 + n2;
  }

  lemma HeaderKept(w: World, cnd: Cond, ls: Locals, st: SState, b: Builder, b3: Builder, fr: Frame, fr0: Frame,
      fr1: Frame, mem: Mem, mem0: Mem)
    requires StateMatch(w.gf.slots, ls, st, b.cfg.nextReg, |b.cfg.slots|, fr, mem) && b.cfg.nextReg <= b3.cfg.nextReg
    requires StateMatch(w.gf.slots, ls, st, b3.cfg.nextReg, |b.cfg.slots|, fr0, mem0)
    requires FrameKept(fr, fr0, b3.cfg.nextReg) && FrameKept(fr0, fr1, LowerReads(cnd.first, ls, b3).0.cfg.nextReg)
    ensures FrameKept(fr, fr1, b.cfg.nextReg) && StateMatch(w.gf.slots, ls, st, b.cfg.nextReg, |b.cfg.slots|, fr1, mem0)
  {
    ReadsNext(cnd.first, ls, b3);
    StateKept(w.gf.slots, ls, st, b3.cfg.nextReg, b3.cfg.nextReg, |b.cfg.slots|, fr0, fr1, mem0);
    Restrict(w.gf.slots, ls, st, b.cfg.nextReg, |b.cfg.slots|, fr, mem, ls, st,
        b3.cfg.nextReg, |b.cfg.slots|, fr1, mem0);
    assert SState(st.env, st.vars[..|st.vars|], st.heap) == st;
  }

  /** From the loop header, in any iteration. */
  lemma {:induction false} SimLoop(
      w: World, fuel: nat, cnd: Cond, body: Code, next: Code, ls: Locals, st: SState, b: Builder, b3: Builder,
      b5: Builder, b7: Builder,
      fr: Frame, ks: Stack, mem: Mem)
    returns (n: nat, fr': Frame, mem': Mem)
    requires WorldOk(w) && ProgramOk(w.src, w.fns) && fr.fn == w.k && fr.block == ContinueOf(b) && fr.pc == 0
    requires LoopLaidOut(w, body, next, ls, b, b3, b5, Lower(body, ls, b5), b7, HeaderIns(cnd, ls, b, b3))
    requires StateMatch(w.gf.slots, ls, st, b.cfg.nextReg, |b.cfg.slots|, fr, mem)
    ensures Simulated(w, RunWhile(w.src, w.k, fuel, cnd, body, next, st), fuel, ls, st,
                      b.cfg, Lower(next, ls, b7).cfg, fr, ks, mem, n, fr', mem')
    decreases w.k, fuel, While(cnd, body, next), 2, 0
  {
    hide Simulated, StateMatch, Goes, MemKept, FrameKept, Holds, CloseHolds, Included, Run, Lower, HeaderIns, WorldOk,
         ProgramOk;
    match EvalCond(cnd, st)
    case None =>
      n, fr', mem' := 0, fr, mem;
      AnyWrong(w, fuel, ls, st, b.cfg, Lower(next, ls, b7).cfg, fr, ks, mem);
    case Some(v) =>
      var n1, fr1, mem1 := HeaderGoes(w, cnd, ls, st, b, b3, fr, ks, mem);
      if !v {
        n, fr', mem' := SimAtJoin(w, While(cnd, body, next), next, fuel, ls, st, st, b, b7, BreakOf(b), fr, ks, mem, n1,
            fr1, mem1);
      } else if fuel > 0 {
        n, fr', mem' := SimBody(w, fuel, cnd, body, next, ls, st, b, b3, b5, b7, fr, ks, mem, n1, fr1, mem1);
      } else {
        n, fr', mem' := 0, fr, mem;
        OutOfFuel(w, ls, st, b.cfg, Lower(next, ls, b7).cfg, fr, ks, mem);
      }
  }

  lemma AnyWrong(w: World, fuel: nat, ls: Locals, st: SState, g: Cfg, g': Cfg, fr: Frame, ks: Stack, mem: Mem)
    ensures Simulated(w, Wrong, fuel, ls, st, g, g', fr, ks, mem, 0, fr, mem)
  {}

  lemma OutOfFuel(w: World, ls: Locals, st: SState, g: Cfg, g': Cfg, fr: Frame, ks: Stack, mem: Mem)
    ensures Simulated(w, Timeout, 0, ls, st, g, g', fr, ks, mem, 0, fr, mem)
  {}

  /** An iteration, from the start of its body. */
  lemma {:induction false} SimBody(
      w: World, fuel: nat, cnd: Cond, body: Code, next: Code, ls: Locals, st: SState, b: Builder, b3: Builder,
      b5: Builder, b7: Builder,
      fr: Frame, ks: Stack, mem: Mem, n1: nat, fr1: Frame, mem1: Mem)
    returns (n: nat, fr': Frame, mem': Mem)
    requires WorldOk(w) && ProgramOk(w.src, w.fns) && fuel > 0 && fr.fn == w.k
    requires LoopLaidOut(w, body, next, ls, b, b3, b5, Lower(body, ls, b5), b7, HeaderIns(cnd, ls, b, b3))
    requires StateMatch(w.gf.slots, ls, st, b.cfg.nextReg, |b.cfg.slots|, fr, mem)
    requires n1 >= 1 && Goes(w.fns, n1, fr, ks, mem, fr1, mem1) && FrameKept(fr, fr1, b.cfg.nextReg) &&
             MemKept(mem, mem1, st.heap, fr.base)
    requires StateMatch(w.gf.slots, ls, st, b.cfg.nextReg, |b.cfg.slots|, fr1, mem1)
    requires fr1.fn == w.k && fr1.block == IterationOf(b) && fr1.pc == 0
    ensures Simulated(w, AfterBody(w.src, w.k, fuel, Run(w.src, w.k, fuel - 1, body, st), cnd, body, next, st), fuel,
            ls, st,
                      b.cfg, Lower(next, ls, b7).cfg, fr, ks, mem, n, fr', mem')
    decreases w.k, fuel, While(cnd, body, next), 1, 3
  {
    hide Simulated, StateMatch, Goes, MemKept, FrameKept, Holds, CloseHolds, Included, Run, Lower, HeaderIns, WorldOk,
         ProgramOk;
    StateWider(w.gf.slots, ls, st, b.cfg.nextReg, b5.cfg.nextReg, |b.cfg.slots|, |b5.cfg.slots|, fr1, fr1, mem1);
    JoinReady(w, body, ls, st, b5, IterationOf(b), fr1, mem1);
    var n2, fr2, mem2 := Sim(w, body, fuel - 1, ls, st, b5, fr1, ks, mem1);
    n, fr', mem' := SimIteration(w, fuel, cnd, body, next, Run(w.src, w.k, fuel - 1, body, st), ls, st, b, b3, b5, b7,
                                 fr, ks, mem, n1, fr1, mem1, n2, fr2, mem2);
  }

  lemma KeptFn(fr: Frame, fr1: Frame, n: nat)
    requires FrameKept(fr, fr1, n)
    ensures fr1.fn == fr.fn
  {}

  /** One iteration has run its body, with outcome a. */
  lemma {:induction false} SimIteration(
      w: World, fuel: nat, cnd: Cond, body: Code, next: Code, a: Outcome, ls: Locals, st: SState,
      b: Builder, b3: Builder, b5: Builder, b7: Builder,
      fr: Frame, ks: Stack, mem: Mem, n1: nat, fr1: Frame, mem1: Mem, n2: nat, fr2: Frame, mem2: Mem)
    returns (n: nat, fr': Frame, mem': Mem)
    requires WorldOk(w) && ProgramOk(w.src, w.fns) && fuel > 0 && Scoped(a, |st.vars|) && fr.fn == w.k
    requires LoopLaidOut(w, body, next, ls, b, b3, b5, Lower(body, ls, b5), b7, HeaderIns(cnd, ls, b, b3))
    requires StateMatch(w.gf.slots, ls, st, b.cfg.nextReg, |b.cfg.slots|, fr, mem)
    requires n1 >= 1 && Goes(w.fns, n1, fr, ks, mem, fr1, mem1) && FrameKept(fr, fr1, b.cfg.nextReg) &&
             MemKept(mem, mem1, st.heap, fr.base)
    requires Simulated(w, a, fuel - 1, ls, st, b5.cfg, Lower(body, ls, b5).cfg, fr1, ks, mem1, n2, fr2, mem2)
    ensures Simulated(w, AfterBody(w.src, w.k, fuel, a, cnd, body, next, st), fuel, ls, st,
                      b.cfg, Lower(next, ls, b7).cfg, fr, ks, mem, n, fr', mem')
    decreases w.k, fuel, While(cnd, body, next), 1, 2
  {
    hide Simulated, Resumes, AtEnd, FrameKept, StateMatch, Goes, MemKept, LoopLaidOut, Run, RunWhile, Lower, HeaderIns,
         WorldOk, ProgramOk;
    var end := Lower(body, ls, b5);
    BodyOutcome(w, a, fuel - 1, ls, st, b5.cfg, end.cfg, fr1, ks, mem1, n2, fr2, mem2);
    IterationScope(w, cnd, body, next, ls, b, b3, b5, b7);
    match a
    case Normal(vars, heap) =>
      LaterResumes(w, ls, st, b.cfg, ls, st, b5.cfg, vars, heap, fr, ks, mem, n1, fr1, mem1, n2, fr2, mem2);
      n, fr', mem' := BodyEnded(w, fuel, cnd, body, next, vars, heap, ls, st, b, b3, b5,
          b7, fr, ks, mem, n1 + n2, fr2, mem2);
    case Continued(vars, heap) =>
      LaterResumes(w, ls, st, b.cfg, ls, st, b5.cfg, vars, heap, fr, ks, mem, n1, fr1, mem1, n2, fr2, mem2);
      n, fr', mem' := BodyContinued(w, fuel, cnd, body, next, vars, heap, ls, st, b, b3, b5, b7, fr, ks, mem, n1 + n2,
          fr2, mem2);
    case Broke(vars, heap) =>
      LaterResumes(w, ls, st, b.cfg, ls, st, b5.cfg, vars, heap, fr, ks, mem, n1, fr1, mem1, n2, fr2, mem2);
      n, fr', mem' := BodyBroke(w, fuel, cnd, body, next, vars, heap, ls, st, b, b3, b5,
          b7, fr, ks, mem, n1 + n2, fr2, mem2);
    case _ =>
      BodyLeft(w, fuel, a, ls, st, b.cfg, b5.cfg, end.cfg, Lower(next, ls, b7).cfg, fr,
          ks, mem, n1, fr1, mem1, n2, fr2, mem2);
      n, fr', mem' := n1 + n2, fr2, mem2;
  }

  /** Where an outcome that is not an exit from the function leaves the machine. */
  lemma BodyOutcome(w: World, o: Outcome, fuel: nat, ls: Locals, st: SState, g: Cfg, g': Cfg,
                    fr: Frame, ks: Stack, mem: Mem, n: nat, fr': Frame, mem': Mem)
    requires Simulated(w, o, fuel, ls, st, g, g', fr, ks, mem, n, fr', mem')
    ensures match o
            case Normal(vars, heap) => !g'.exited && AtEnd(w, fr', g') &&
            Resumes(w, ls, st, vars, heap, g, fr, ks, mem, n, fr', mem')
            case Broke(vars, heap) =>
              g.loop.InLoop? && fr'.block == g.loop.breakBlock && fr'.pc == 0 &&
              Resumes(w, ls, st, vars, heap, g, fr, ks, mem, n, fr', mem')
            case Continued(vars, heap) =>
              g.loop.InLoop? && fr'.block == g.loop.continueBlock && fr'.pc == 0 &&
              Resumes(w, ls, st, vars, heap, g, fr, ks, mem, n, fr', mem')
            case _ => true
  {
    hide Resumes, AtEnd;
  }

  lemma IterationScope(w: World, cnd: Cond, body: Code, next: Code, ls: Locals, b: Builder, b3: Builder, b5: Builder,
      b7: Builder)
    requires LoopLaidOut(w, body, next, ls, b, b3, b5, Lower(body, ls, b5), b7, HeaderIns(cnd, ls, b, b3))
    ensures b.cfg.nextReg <= b5.cfg.nextReg && b5.cfg.loop == InLoop(ContinueOf(b), BreakOf(b))
  {
    hide Joined, Holds, CloseHolds;
  }

  /** The body has returned, or has not finished. */
  lemma BodyLeft(w: World, fuel: nat, a: Outcome, ls: Locals, st: SState, g: Cfg, g1: Cfg, g2: Cfg, g': Cfg,
                 fr: Frame, ks: Stack, mem: Mem, n1: nat, fr1: Frame, mem1: Mem, n2: nat, fr': Frame, mem': Mem)
    requires a.Returned? || a.Timeout? || a.Wrong?
    requires fuel > 0 && n1 >= 1 && g.nextReg <= g1.nextReg
    requires StateMatch(w.gf.slots, ls, st, g.nextReg, |g.slots|, fr, mem)
    requires Goes(w.fns, n1, fr, ks, mem, fr1, mem1) && FrameKept(fr, fr1, g.nextReg) &&
             MemKept(mem, mem1, st.heap, fr.base)
    requires Simulated(w, a, fuel - 1, ls, st, g1, g2, fr1, ks, mem1, n2, fr', mem')
    ensures Simulated(w, a, fuel, ls, st, g, g', fr, ks, mem, n1 + n2, fr', mem')
  {
    hide Simulated, StateMatch, Goes, FrameKept, MemKept;
    Later(w, a, fuel, fuel - 1, ls, st, g, ls, st, g1, g2, fr, ks, mem, n1, fr1, mem1, n2, fr', mem');
    AnyEnd(w, a, fuel, ls, st, g, g2, g', fr, ks, mem, n1 + n2, fr', mem');
  }

  /** The body has fallen through. */
  lemma {:induction false} BodyEnded(
      w: World, fuel: nat, cnd: Cond, body: Code, next: Code, vars: seq<Cell>, heap: Mem, ls: Locals, st: SState,
      b: Builder, b3: Builder, b5: Builder, b7: Builder, fr: Frame, ks: Stack, mem: Mem, m: nat, fr2: Frame, mem2: Mem)
    returns (n: nat, fr': Frame, mem': Mem)
    requires WorldOk(w) && ProgramOk(w.src, w.fns) && fuel > 0 && m >= 1 && fr.fn == w.k
    requires LoopLaidOut(w, body, next, ls, b, b3, b5, Lower(body, ls, b5), b7, HeaderIns(cnd, ls, b, b3))
    requires StateMatch(w.gf.slots, ls, st, b.cfg.nextReg, |b.cfg.slots|, fr, mem)
    requires Resumes(w, ls, st, vars, heap, b.cfg, fr, ks, mem, m, fr2, mem2)
    requires !Lower(body, ls, b5).cfg.exited && AtEnd(w, fr2, Lower(body, ls, b5).cfg)
    ensures |vars| >= |st.vars|
    ensures Simulated(w, RunWhile(w.src, w.k, fuel - 1, cnd, body, next, Leave(st, vars, heap)), fuel, ls, st,
                      b.cfg, Lower(next, ls, b7).cfg, fr, ks, mem, n, fr', mem')
    decreases w.k, fuel, While(cnd, body, next), 1, 1
  {
    hide Simulated, StateMatch, Goes, MemKept, FrameKept, Holds, Included, Run, Lower, HeaderIns, WorldOk, ProgramOk;
    var fr3 := ReachJoin(w, ls, st, vars, heap, b.cfg, Lower(body, ls, b5), ContinueOf(b),
        b.cfg, fr, ks, mem, m, fr2, mem2);
    n, fr', mem' := SimAgain(w, fuel, cnd, body, next, ls, st, Leave(st, vars, heap), b, b3, b5, b7, fr, ks, mem, m + 1,
        fr3, mem2);
  }

  /** The body has ended in continue_. */
  lemma {:induction false} BodyContinued(
      w: World, fuel: nat, cnd: Cond, body: Code, next: Code, vars: seq<Cell>, heap: Mem, ls: Locals, st: SState,
      b: Builder, b3: Builder, b5: Builder, b7: Builder, fr: Frame, ks: Stack, mem: Mem, m: nat, fr2: Frame, mem2: Mem)
    returns (n: nat, fr': Frame, mem': Mem)
    requires WorldOk(w) && ProgramOk(w.src, w.fns) && fuel > 0 && m >= 1 && fr.fn == w.k
    requires LoopLaidOut(w, body, next, ls, b, b3, b5, Lower(body, ls, b5), b7, HeaderIns(cnd, ls, b, b3))
    requires StateMatch(w.gf.slots, ls, st, b.cfg.nextReg, |b.cfg.slots|, fr, mem)
    requires Resumes(w, ls, st, vars, heap, b.cfg, fr, ks, mem, m, fr2, mem2)
    requires fr2.block == ContinueOf(b) && fr2.pc == 0
    ensures |vars| >= |st.vars|
    ensures Simulated(w, RunWhile(w.src, w.k, fuel - 1, cnd, body, next, Leave(st, vars, heap)), fuel, ls, st,
                      b.cfg, Lower(next, ls, b7).cfg, fr, ks, mem, n, fr', mem')
    decreases w.k, fuel, While(cnd, body, next), 1, 1
  {
    hide Simulated, StateMatch, Goes, MemKept, FrameKept, Holds, Included, Run, Lower, HeaderIns, WorldOk, ProgramOk;
    KeptFn(fr, fr2, b.cfg.nextReg);
    n, fr', mem' := SimAgain(w, fuel, cnd, body, next, ls, st, Leave(st, vars, heap), b, b3, b5, b7, fr, ks, mem, m,
        fr2, mem2);
  }

  /** The body has ended in break_. */
  lemma {:induction false} BodyBroke(
      w: World, fuel: nat, cnd: Cond, body: Code, next: Code, vars: seq<Cell>, heap: Mem, ls: Locals, st: SState,
      b: Builder, b3: Builder, b5: Builder, b7: Builder, fr: Frame, ks: Stack, mem: Mem, m: nat, fr2: Frame, mem2: Mem)
    returns (n: nat, fr': Frame, mem': Mem)
    requires WorldOk(w) && ProgramOk(w.src, w.fns) && fuel > 0 && m >= 1 && fr.fn == w.k
    requires LoopLaidOut(w, body, next, ls, b, b3, b5, Lower(body, ls, b5), b7, HeaderIns(cnd, ls, b, b3))
    requires StateMatch(w.gf.slots, ls, st, b.cfg.nextReg, |b.cfg.slots|, fr, mem)
    requires Resumes(w, ls, st, vars, heap, b.cfg, fr, ks, mem, m, fr2, mem2)
    requires fr2.block == BreakOf(b) && fr2.pc == 0
    ensures |vars| >= |st.vars|
    ensures Simulated(w, Run(w.src, w.k, fuel, next, Leave(st, vars, heap)), fuel, ls, st,
                      b.cfg, Lower(next, ls, b7).cfg, fr, ks, mem, n, fr', mem')
    decreases w.k, fuel, While(cnd, body, next), 1, 1
  {
    hide Simulated, StateMatch, Goes, MemKept, FrameKept, Holds, Included, Run, Lower, HeaderIns, WorldOk, ProgramOk;
    KeptFn(fr, fr2, b.cfg.nextReg);
    n, fr', mem' := SimAtJoin(w, While(cnd, body, next), next, fuel, ls, st, Leave(st, vars, heap), b, b7, BreakOf(b),
                              fr, ks, mem, m, fr2, mem2);
  }

  /** Back at the header for another iteration. */
  lemma {:induction false} SimAgain(
      w: World, fuel: nat, cnd: Cond, body: Code, next: Code, ls: Locals, st: SState, st2: SState,
      b: Builder, b3: Builder, b5: Builder, b7: Builder, fr: Frame, ks: Stack, mem: Mem, n1: nat, fr1: Frame, mem1: Mem)
    returns (n: nat, fr': Frame, mem': Mem)
    requires WorldOk(w) && ProgramOk(w.src, w.fns) && fuel > 0 && n1 >= 1
    requires LoopLaidOut(w, body, next, ls, b, b3, b5, Lower(body, ls, b5), b7, HeaderIns(cnd, ls, b, b3))
    requires StateMatch(w.gf.slots, ls, st, b.cfg.nextReg, |b.cfg.slots|, fr, mem)
    requires Goes(w.fns, n1, fr, ks, mem, fr1, mem1) && FrameKept(fr, fr1, b.cfg.nextReg) &&
             MemKept(mem, mem1, st.heap, fr.base)
    requires StateMatch(w.gf.slots, ls, st2, b.cfg.nextReg, |b.cfg.slots|, fr1, mem1) &&
             InnerScope(ls, st, b.cfg, ls, st2, b.cfg)
    requires fr1.fn == w.k && fr1.block == ContinueOf(b) && fr1.pc == 0
    ensures Simulated(w, RunWhile(w.src, w.k, fuel - 1, cnd, body, next, st2), fuel, ls, st,
                      b.cfg, Lower(next, ls, b7).cfg, fr, ks, mem, n, fr', mem')
    decreases w.k, fuel, While(cnd, body, next), 0, 0
  {
    hide Simulated, StateMatch, Goes, MemKept, FrameKept, Holds, CloseHolds, Included, Run, Lower, HeaderIns, WorldOk,
         ProgramOk;
    var n2;
    n2, fr', mem' := SimLoop(w, fuel - 1, cnd, body, next, ls, st2, b, b3, b5, b7, fr1, ks, mem1);
    Later(w, RunWhile(w.src, w.k, fuel - 1, cnd, body, next, st2), fuel, fuel - 1, ls, st, b.cfg, ls, st2, b.cfg,
          Lower(next, ls, b7).cfg, fr, ks, mem, n1, fr1, mem1, n2, fr', mem');
    n := n1 + n2;
  }

  lemma {:induction false} SimWhile(
      w: World, fuel: nat, cnd: Cond, body: Code, next: Code, ls: Locals, st: SState, b: Builder, fr: Frame, ks: Stack,
      mem: Mem)
    returns (n: nat, fr': Frame, mem': Mem)
    requires WorldOk(w) && ProgramOk(w.src, w.fns) && Ready(w, While(cnd, body, next), ls, st, b, fr, mem)
    requires EvalCond(cnd, st).Some?
    ensures Simulated(w, RunWhile(w.src, w.k, fuel, cnd, body, next, st), fuel, ls, st,
                      b.cfg, LowerWhile(cnd, body, next, ls, b).cfg, fr, ks, mem, n, fr', mem')
    decreases w.k, fuel, While(cnd, body, next), 3, 0
  {
    WhileParts(w, cnd, body, next, ls, b);
    var b3 := WhileEntry(cnd, ls, b);
    var b5 := WhileTest(cnd, ls, b, b3);
    var b7 := WhileEnd(b, Lower(body, ls, b5));
    var n1, fr1, mem1 := EntryGoes(w, cnd, ls, st, b, fr, ks, mem);
    n, fr', mem' := SimFirst(w, fuel, cnd, body, next, ls, st, b, b3, b5, b7, fr, ks, mem, n1, fr1, mem1);
  }

  lemma {:induction false} SimFirst(
      w: World, fuel: nat, cnd: Cond, body: Code, next: Code, ls: Locals, st: SState,
      b: Builder, b3: Builder, b5: Builder, b7: Builder, fr: Frame, ks: Stack, mem: Mem, n1: nat, fr1: Frame, mem1: Mem)
    returns (n: nat, fr': Frame, mem': Mem)
    requires WorldOk(w) && ProgramOk(w.src, w.fns)
    requires LoopLaidOut(w, body, next, ls, b, b3, b5, Lower(body, ls, b5), b7, HeaderIns(cnd, ls, b, b3))
    requires StateMatch(w.gf.slots, ls, st, b.cfg.nextReg, |b.cfg.slots|, fr, mem)
    requires Goes(w.fns, n1, fr, ks, mem, fr1, mem1) && FrameKept(fr, fr1, b.cfg.nextReg) &&
             MemKept(mem, mem1, st.heap, fr.base)
    requires StateMatch(w.gf.slots, ls, st, b.cfg.nextReg, |b.cfg.slots|, fr1, mem1)
    requires fr1.fn == w.k && fr1.block == ContinueOf(b) && fr1.pc == 0
    ensures Simulated(w, RunWhile(w.src, w.k, fuel, cnd, body, next, st), fuel, ls, st,
                      b.cfg, Lower(next, ls, b7).cfg, fr, ks, mem, n, fr', mem')
    decreases w.k, fuel, While(cnd, body, next), 2, 1
  {
    hide Simulated, StateMatch, Goes, MemKept, FrameKept, Holds, CloseHolds, Included, Run, Lower, HeaderIns, WorldOk,
         ProgramOk;
    var n2;
    n2, fr', mem' := SimLoop(w, fuel, cnd, body, next, ls, st, b, b3, b5, b7, fr1, ks, mem1);
    Later(w, RunWhile(w.src, w.k, fuel, cnd, body, next, st), fuel, fuel, ls, st, b.cfg, ls, st, b.cfg,
          Lower(next, ls, b7).cfg, fr, ks, mem, n1, fr1, mem1, n2, fr', mem');
    n := n1 + n2;
  }

  // ----- calls -----

  /** Arguments are computed, and the callee starts on top of the caller's stack memory. */
  lemma CallEnters(w: World, fn: FnRef, args: seq<Expr>, next: Code, ls: Locals, st: SState, b: Builder, fr: Frame,
      ks: Stack, mem: Mem)
    returns (n: nat, fr0: Frame)
    requires WorldOk(w) && Ready(w, Call(fn, args, next), ls, st, b, fr, mem) && EvalArgs(args, st.env).Some?
    ensures var vs, c := EvalArgs(args, st.env).value, EmittedArgs(args, ls.vals, b.cfg.nextReg);
            AllInRange(vs) && AtEnd(w, fr0, LowerCall(fn, args, ls, b).cfg) && FrameKept(fr, fr0, b.cfg.nextReg) &&
            Steps(w.fns, n, Running(Push(fr, ks), mem)) ==
            Running(Push(Enter(fn.idx, Pats(vs), fr.sp, c.next), Push(fr0, ks)), mem)
  {
    hide StateMatch, LowerCall, Included, Holds, Sane, Grows, Lower, EvalArgs, EmittedArgs, AllInRange, ArgsCompute,
         Pats, WorldOk, OpVals, FrameKept, Fetch,
         LoopOk;
    var vs, c := EvalArgs(args, st.env).value, EmittedArgs(args, ls.vals, b.cfg.nextReg);
    var call := ICall(c.next, fn.idx, c.res);
    var ins := WithLoc(c.ops + [call], Loc(CurrentLine(b), b.scope));
    CallHolds(w, fn, args, next, ls, b);
    CallArgs(w, args, ls, st, b, fr, mem);
    OpsOfWithLoc(c.ops + [call], Loc(CurrentLine(b), b.scope));
    fr0 := ArgsGo(w, fr, ks, mem, b.cfg.cur, |b.cfg.code[b.cfg.cur]|, ins, c, b.cfg.nextReg, Pats(vs), call);
    OneStep(w.fns, fr0, ks, mem, call);
    StepsAdd(w.fns, |c.ops|, 1, Running(Push(fr, ks), mem));
    KeptStack(fr, fr0, b.cfg.nextReg);
    n, fr0 := |c.ops| + 1, fr0.(pc := fr0.pc + 1);
    EndAfter(w, fr0, b.cfg, LowerCall(fn, args, ls, b).cfg, ins);
  }

  lemma EndAfter(w: World, fr: Frame, g: Cfg, h: Cfg, ins: seq<Ins>)
    requires Extends(g, h, ins) && AtPos(w, fr, g.cur, |g.code[g.cur]| + |ins|)
    ensures AtEnd(w, fr, h)
  {}

  lemma KeptStack(fr: Frame, fr0: Frame, nr: nat)
    requires FrameKept(fr, fr0, nr)
    ensures fr0.sp == fr.sp && FrameKept(fr, fr0.(pc := fr0.pc + 1), nr)
  {}

  /** Computing an argument list, up to the call that uses it. */
  lemma ArgsGo(w: World, fr: Frame, ks: Stack, mem: Mem, l: Label, i: nat, ins: seq<Ins>, c: ArgsCode, r: nat,
      ps: seq<nat>, last: Op)
    returns (fr0: Frame)
    requires WorldOk(w) && Holds(w.gf, l, i, ins) && AtPos(w, fr, l, i) && OpsOf(ins) == c.ops + [last]
    requires ArgsCompute(c, r, fr.slots, Core(fr.regs, mem), ps)
    ensures Goes(w.fns, |c.ops|, fr, ks, mem, fr0, mem) && FrameKept(fr, fr0, r) && AtPos(w, fr0, l, i + |c.ops|)
    ensures Fetch(w.fns, fr0) == Some(last) && OpVals(c.res, fr0.regs, fr0.slots) == Some(ps)
  {
    hide Holds, WorldOk;
    forall j | 0 <= j < |c.ops|
      ensures ins[j].op == c.ops[j]
    {
      assert OpsOf(ins)[j] == c.ops[j];
    }
    StraightGoes(w, fr, ks, mem, l, i, ins, c.ops);
    fr0 := fr.(pc := fr.pc + |c.ops|, regs := RunOps(c.ops, fr.slots, Core(fr.regs, mem)).value.regs);
    assert OpsOf(ins)[|c.ops|] == last;
    FetchAt(w, fr0, l, i, ins, |c.ops|);
  }

  lemma CallArgs(w: World, args: seq<Expr>, ls: Locals, st: SState, b: Builder, fr: Frame, mem: Mem)
    requires StateMatch(w.gf.slots, ls, st, b.cfg.nextReg, |b.cfg.slots|, fr, mem) && EvalArgs(args, st.env).Some?
    ensures AllInRange(EvalArgs(args, st.env).value)
    ensures ArgsCompute(EmittedArgs(args, ls.vals, b.cfg.nextReg), b.cfg.nextReg, fr.slots, Core(fr.regs, mem),
                        Pats(EvalArgs(args, st.env).value))
  {
    ArgsComputes(args, ls.vals, st.env, b.cfg.nextReg, fr.slots, Core(fr.regs, mem));
  }

  lemma CallHolds(w: World, fn: FnRef, args: seq<Expr>, next: Code, ls: Locals, b: Builder)
    requires Sane(b.cfg) && Included(Lower(Call(fn, args, next), ls, b).cfg, w.gf)
    ensures var c, b1 := EmittedArgs(args, ls.vals, b.cfg.nextReg), LowerCall(fn, args, ls, b);
            var ins := WithLoc(c.ops + [ICall(c.next, fn.idx, c.res)], Loc(CurrentLine(b), b.scope));
            Holds(w.gf, b.cfg.cur, |b.cfg.code[b.cfg.cur]|, ins) && Extends(b.cfg, b1.cfg, ins) && Sane(b1.cfg) &&
            b1.cfg.nextReg == c.next + 1 && b1.cfg.slots == b.cfg.slots && c.next >= b.cfg.nextReg &&
            Included(Lower(next, CallLocals(fn, args, ls, b), b1).cfg, w.gf)
  {
    assert Lower(Call(fn, args, next), ls, b) == LowerCallThen(fn, args, next, ls, b);
    var c, b1, ls1 := EmittedArgs(args, ls.vals, b.cfg.nextReg), LowerCall(fn, args, ls, b),
        CallLocals(fn, args, ls, b);
    LowerCallShape(fn, args, ls, b);
    LowerGrows(next, ls1, b1);
    IncludedGrows(b1.cfg, Lower(next, ls1, b1).cfg, w.gf);
    AppendedHolds(b.cfg, b1.cfg, WithLoc(c.ops + [ICall(c.next, fn.idx, c.res)], Loc(CurrentLine(b), b.scope)), w.gf);
  }

  function WithResult(fr: Frame, dst: nat, v: Option<SVal>): Frame {
    if v.Some? then fr.(regs := fr.regs[dst := PatOf(v.value.ty, v.value.v)]) else fr
  }

  /** The callee has returned: its own stack memory is abandoned, the caller's is as it was. */
  lemma CallReturns(w: World, fn: FnRef, args: seq<Expr>, next: Code, ls: Locals, st: SState, b: Builder, fr: Frame,
      mem: Mem,
                    fr0: Frame, v: Option<SVal>, heap: Mem, mem': Mem)
    requires Ready(w, Call(fn, args, next), ls, st, b, fr, mem)
    requires AtEnd(w, fr0, LowerCall(fn, args, ls, b).cfg) && FrameKept(fr, fr0, b.cfg.nextReg)
    requires heap.Keys == st.heap.Keys && (v.Some? ==> InRange(v.value.ty, v.value.v))
    requires HeapMatch(heap, mem', fr.sp) && MemKept(mem, mem', st.heap, fr.sp)
    ensures var c, b1, ls1 := EmittedArgs(args, ls.vals, b.cfg.nextReg), LowerCall(fn, args, ls, b),
            CallLocals(fn, args, ls, b);
            var fr1, st1 := WithResult(fr0, c.next, v), AfterCall(v, heap, st);
            Ready(w, next, ls1, st1, b1, fr1, mem') && FrameKept(fr, fr1, b.cfg.nextReg) &&
            MemKept(mem, mem', st.heap, fr.base) && InnerScope(ls, st, b.cfg, ls1, st1, b1.cfg)
  {
    hide Included, Lower, EmittedArgs, Sane, ValsMatch, VarsMatch, Holds;
    var c, b1 := EmittedArgs(args, ls.vals, b.cfg.nextReg), LowerCall(fn, args, ls, b);
    CallHolds(w, fn, args, next, ls, b);
    AfterReturn(w.gf.slots, ls, st, b.cfg.nextReg, c.next, |b.cfg.slots|, fr, mem, fr0, v, heap, mem',
        fn.name + "_ret");
  }

  lemma AfterReturn(tys: seq<Ty>, ls: Locals, st: SState, nr: nat, dst: nat, ns: nat, fr: Frame, mem: Mem,
                    fr0: Frame, v: Option<SVal>, heap: Mem, mem': Mem, name: string)
    requires StateMatch(tys, ls, st, nr, ns, fr, mem) && FrameKept(fr, fr0, nr) && nr <= dst
    requires heap.Keys == st.heap.Keys && (v.Some? ==> InRange(v.value.ty, v.value.v))
    requires HeapMatch(heap, mem', fr.sp) && MemKept(mem, mem', st.heap, fr.sp)
    ensures StateMatch(tys, PushValue(ls, Value(Reg(dst), name)), AfterCall(v, heap, st), dst + 1, ns,
            WithResult(fr0, dst, v), mem')
    ensures FrameKept(fr, WithResult(fr0, dst, v), nr) && MemKept(mem, mem', st.heap, fr.base)
  {
    hide VarsMatch, ValsMatch;
    var fr1 := WithResult(fr0, dst, v);
    PushVal(ls, Value(Reg(dst), name), st, if v.Some? then v.value else SVal(TVoid, 0), fr.regs, fr1.regs, nr, dst + 1);
    VarsAfterStore(tys, ns, ls.vars, st.vars, fr.slots, fr.base, fr.sp, mem, mem');
    FrameAfterWrite(tys, fr.slots, fr.base, fr.sp, mem, mem');
  }

  lemma {:induction false} SimCall(
      w: World, fuel: nat, fn: FnRef, args: seq<Expr>, next: Code, ls: Locals, st: SState, b: Builder, fr: Frame,
      ks: Stack, mem: Mem)
    returns (n: nat, fr': Frame, mem': Mem)
    requires WorldOk(w) && ProgramOk(w.src, w.fns) && Ready(w, Call(fn, args, next), ls, st, b, fr, mem)
    requires EvalArgs(args, st.env).Some? && CallOk(w.src, w.k, fn, EvalArgs(args, st.env).value)
    ensures Simulated(w, RunCall(w.src, w.k, fuel, fn, args, next, st), fuel, ls, st,
                      b.cfg, LowerCallThen(fn, args, next, ls, b).cfg, fr, ks, mem, n, fr', mem')
    decreases w.k, fuel, Call(fn, args, next), 3, 0
  {
    hide Lower, Run, Included, ProgramOk, WorldOk, Ready, FrameKept, EvalArgs, EmittedArgs, ReturnTo;
    var vs, c := EvalArgs(args, st.env).value, EmittedArgs(args, ls.vals, b.cfg.nextReg);
    var n1, fr0 := CallEnters(w, fn, args, next, ls, st, b, fr, ks, mem);
    StackHeap(w, Call(fn, args, next), ls, st, b, fr, mem);
    var callee := Enter(fn.idx, Pats(vs), fr.sp, c.next);
    var n2, mem2 := SimFunction(w.src, w.fns, fn.idx, fuel, vs, st.heap, fr.sp, c.next, Push(fr0, ks), mem);
    n, fr', mem' := FinishCall(w, Run(w.src, fn.idx, fuel, w.src[fn.idx].body, SState(vs, [], st.heap)), fuel, fn, args,
        next, ls, st, b,
                               fr, ks, mem, n1, fr0, callee, n2, mem2);
  }

  lemma StackHeap(w: World, c: Code, ls: Locals, st: SState, b: Builder, fr: Frame, mem: Mem)
    requires Ready(w, c, ls, st, b, fr, mem)
    ensures HeapMatch(st.heap, mem, fr.sp)
  {}

  /** What RunCall makes of the callee's outcome. */
  ghost function CallOutcome(src: seq<FnDef>, k: nat, fuel: nat, a: Outcome, next: Code, st: SState): Outcome {
    match a
    case Returned(v, h) => Run(src, k, fuel, next, AfterCall(v, h, st))
    case Timeout => Timeout
    case _ => Wrong
  }

  lemma {:induction false} FinishCall(
      w: World, a: Outcome, fuel: nat, fn: FnRef, args: seq<Expr>, next: Code, ls: Locals, st: SState, b: Builder,
      fr: Frame, ks: Stack, mem: Mem, n1: nat, fr0: Frame, callee: Frame, n2: nat, mem2: Mem)
    returns (n: nat, fr': Frame, mem': Mem)
    requires WorldOk(w) && ProgramOk(w.src, w.fns) && Ready(w, Call(fn, args, next), ls, st, b, fr, mem)
    requires Steps(w.fns, n1, Running(Push(fr, ks), mem)) == Running(Push(callee, Push(fr0, ks)), mem)
    requires callee.base == fr.sp && callee.dst == EmittedArgs(args, ls.vals, b.cfg.nextReg).next
    requires FunctionSimulated(w.fns, a, fuel, st.heap, callee, Push(fr0, ks), mem, n2, mem2)
    requires AtEnd(w, fr0, LowerCall(fn, args, ls, b).cfg) && FrameKept(fr, fr0, b.cfg.nextReg)
    ensures Simulated(w, CallOutcome(w.src, w.k, fuel, a, next, st), fuel, ls, st,
                      b.cfg, LowerCallThen(fn, args, next, ls, b).cfg, fr, ks, mem, n, fr', mem')
    decreases w.k, fuel, Call(fn, args, next), 2, 0
  {
    hide Lower, Run, Included, ProgramOk, WorldOk, FrameKept, EmittedArgs, LowerCall, CallLocals, MemKept, HeapMatch,
         InnerScope, AtEnd,
         StateMatch, LoopOk, Sane;
    n, fr', mem' := n1 + n2, fr, mem2;
    StepsAdd(w.fns, n1, n2, Running(Push(fr, ks), mem));
    match a
    case Returned(v, h) =>
      var c, b1, ls1 := EmittedArgs(args, ls.vals, b.cfg.nextReg), LowerCall(fn, args, ls, b),
          CallLocals(fn, args, ls, b);
      var fr1, st1 := WithResult(fr0, c.next, v), AfterCall(v, h, st);
      CallReturns(w, fn, args, next, ls, st, b, fr, mem, fr0, v, h, mem2);
      var n3;
      n3, fr', mem' := Sim(w, next, fuel, ls1, st1, b1, fr1, ks, mem2);
      LowerCallLoop(fn, args, ls, b);
      Later(w, Run(w.src, w.k, fuel, next, st1), fuel, fuel, ls, st, b.cfg, ls1, st1, b1.cfg, Lower(next, ls1, b1).cfg,
            fr, ks, mem, n1 + n2, fr1, mem2, n3, fr', mem');
      n := n1 + n2 + n3;
    case _ =>
  }

  lemma LowerCallLoop(fn: FnRef, args: seq<Expr>, ls: Locals, b: Builder)
    ensures LowerCall(fn, args, ls, b).cfg.loop == b.cfg.loop
  {}

  /** Calling a function, from its fresh frame. */
  lemma {:induction false} SimFunction(
      src: seq<FnDef>, fns: seq<Fn>, j: nat, fuel: nat, vs: seq<SVal>, heap: Mem, sp: nat, dst: nat, ks: Stack,
      mem: Mem)
    returns (n: nat, mem': Mem)
    requires ProgramOk(src, fns) && j < |src| && src[j].params == ParamTypes(vs) && AllInRange(vs) &&
             HeapMatch(heap, mem, sp)
    ensures FunctionSimulated(fns, Run(src, j, fuel, src[j].body, SState(vs, [], heap)), fuel, heap,
                              Enter(j, Pats(vs), sp, dst), ks, mem, n, mem')
    decreases j, fuel, src[j].body, 5, 0
  {
    hide Lower, Run, Included, ProgramOk, WorldOk, Ready, HeapMatch, AllInRange;
    var w, fr, st := WorldOf(src, fns, j), Enter(j, Pats(vs), sp, dst), SState(vs, [], heap);
    WorldOfOk(src, fns, j);
    var n1 := |w.gf.slots|;
    var fr1, mem1 := EnterGoes(src, fns, j, vs, heap, sp, dst, ks, mem);
    var b := BeginFunction(src[j], Before(src, j));
    var n2, fr', mem2 := Sim(w, src[j].body, fuel, Params(|vs|), st, b, fr1, ks, mem1);
    n, mem' := n1 + n2, mem2;
    FunctionEnds(w, Run(src, j, fuel, src[j].body, st), fuel, Params(|vs|), st, b.cfg, BodyOf(src, j).cfg, fr, ks, mem,
        n1, fr1, mem1, n2, fr', mem2);
  }

  lemma FunctionEnds(w: World, o: Outcome, fuel: nat, ls: Locals, st: SState, g: Cfg, g': Cfg,
                     fr: Frame, ks: Stack, mem: Mem, n1: nat, fr1: Frame, mem1: Mem, n2: nat, fr': Frame, mem2: Mem)
    requires Goes(w.fns, n1, fr, ks, mem, fr1, mem1) && FrameStart(fr, fr1) && MemKept(mem, mem1, st.heap, fr.base)
    requires Simulated(w, o, fuel, ls, st, g, g', fr1, ks, mem1, n2, fr', mem2)
    ensures FunctionSimulated(w.fns, o, fuel, st.heap, fr, ks, mem, n1 + n2, mem2)
  {
    hide Resumes, HeapMatch, AtEnd;
    StepsAdd(w.fns, n1, n2, Running(Push(fr, ks), mem));
  }

  // ----- every statement -----
  lemma {:induction false} Sim(w: World, c: Code, fuel: nat, ls: Locals, st: SState, b: Builder, fr: Frame, ks: Stack,
      mem: Mem)
    returns (n: nat, fr': Frame, mem': Mem)
    requires WorldOk(w) && ProgramOk(w.src, w.fns) && Ready(w, c, ls, st, b, fr, mem)
    ensures Simulated(w, Run(w.src, w.k, fuel, c, st), fuel, ls, st, b.cfg,
            Lower(c, ls, b).cfg, fr, ks, mem, n, fr', mem')
    decreases w.k, fuel, c, 4, 0
  {
    hide Simulated, Ready, WorldOk, ProgramOk;
    n, fr', mem' := 0, fr, mem;
    if Run(w.src, w.k, fuel, c, st).Wrong? {
      AnyWrong(w, fuel, ls, st, b.cfg, Lower(c, ls, b).cfg, fr, ks, mem);
    } else {
      StartsDefined(w.src, w.k, fuel, c, st);
      match c
      case Done => SimDone(w, fuel, ls, st, b, fr, ks, mem);
      case Break => n, fr', mem' := SimBreak(w, fuel, ls, st, b, fr, ks, mem);
      case Continue => n, fr', mem' := SimContinue(w, fuel, ls, st, b, fr, ks, mem);
      case ReturnVoid => n, fr', mem' := SimReturnVoid(w, fuel, ls, st, b, fr, ks, mem);
      case Return(e) => n, fr', mem' := SimReturn(w, fuel, e, ls, st, b, fr, ks, mem);
      case Act(a, next) => n, fr', mem' := SimAct(w, fuel, a, next, ls, st, b, fr, ks, mem);
      case Call(fn, args, next) => n, fr', mem' := SimCall(w, fuel, fn, args, next, ls, st, b, fr, ks, mem);
      case If(e, t, f, next) => n, fr', mem' := SimIf(w, fuel, e, t, f, next, ls, st, b, fr, ks, mem);
      case IfThen(e, t, next) => n, fr', mem' := SimIfThen(w, fuel, e, t, next, ls, st, b, fr, ks, mem);
      case While(cnd, body, next) => n, fr', mem' := SimWhile(w, fuel, cnd, body, next, ls, st, b, fr, ks, mem);
    }
  }

  /** The first thing a statement that does not go wrong evaluates has a value. */
  lemma StartsDefined(src: seq<FnDef>, k: nat, fuel: nat, c: Code, st: SState)
    requires !Run(src, k, fuel, c, st).Wrong?
    ensures match c
            case Act(a, _) => Do(a, st).Some?
            case Call(fn, args, _) => EvalArgs(args, st.env).Some? && CallOk(src, k, fn, EvalArgs(args, st.env).value)
            case If(e, _, _, _) => EvalTest(e, st.env).Some?
            case IfThen(e, _, _) => EvalTest(e, st.env).Some?
            case While(cnd, _, _) => EvalCond(cnd, st).Some?
            case Return(e) => Eval(e, st.env).Some?
            case _ => true
  {
    hide Do, Eval, EvalArgs, EvalTest, EvalCond, CallOk;
    match c
    case Act(a, next) => assert !RunAct(src, k, fuel, a, next, st).Wrong?;
    case Call(fn, args, next) => assert !RunCall(src, k, fuel, fn, args, next, st).Wrong?;
    case If(e, t, f, next) => assert !RunIf(src, k, fuel, e, t, f, next, st).Wrong?;
    case IfThen(e, t, next) => assert !RunIfThen(src, k, fuel, e, t, next, st).Wrong?;
    case While(cnd, body, next) => assert !RunWhile(src, k, fuel, cnd, body, next, st).Wrong?;
    case _ =>
  }

  lemma SimDone(w: World, fuel: nat, ls: Locals, st: SState, b: Builder, fr: Frame, ks: Stack, mem: Mem)
    requires Ready(w, Done, ls, st, b, fr, mem)
    ensures Simulated(w, Normal(st.vars, st.heap), fuel, ls, st, b.cfg, b.cfg, fr, ks, mem, 0, fr, mem)
  {
    assert SState(st.env, st.vars[..|st.vars|], st.heap) == st;
  }

  lemma {:induction false} SimAct(
      w: World, fuel: nat, a: Action, next: Code, ls: Locals, st: SState, b: Builder, fr: Frame, ks: Stack, mem: Mem)
    returns (n: nat, fr': Frame, mem': Mem)
    requires WorldOk(w) && ProgramOk(w.src, w.fns) && Ready(w, Act(a, next), ls, st, b, fr, mem) && Do(a, st).Some?
    ensures Simulated(w, RunAct(w.src, w.k, fuel, a, next, st), fuel, ls, st,
                      b.cfg, LowerAct(a, next, ls, b).cfg, fr, ks, mem, n, fr', mem')
    decreases w.k, fuel, Act(a, next), 3, 0
  {
    hide Simulated, StateMatch, Included, LoopOk, Sane, WorldOk, ProgramOk, AtEnd, FrameKept, MemKept, Goes, InnerScope,
         Lower, Run, Do,
         LowerAction, ActionLocals;
    var ls1, st1, b1 := ActionLocals(a, ls, b), Do(a, st).value, LowerAction(a, ls, b);
    var n1, fr1, mem1 := ActGoes(w, a, next, ls, st, b, fr, ks, mem);
    var n2;
    n2, fr', mem' := Sim(w, next, fuel, ls1, st1, b1, fr1, ks, mem1);
    LowerActionLoop(a, ls, b);
    Later(w, Run(w.src, w.k, fuel, next, st1), fuel, fuel, ls, st, b.cfg, ls1, st1, b1.cfg, Lower(next, ls1, b1).cfg,
          fr, ks, mem, n1, fr1, mem1, n2, fr', mem');
    n := n1 + n2;
  }

  lemma LowerActionLoop(a: Action, ls: Locals, b: Builder)
    ensures LowerAction(a, ls, b).cfg.loop == b.cfg.loop
  {}
}
