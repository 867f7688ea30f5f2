/** Semantic preservation: from the point where the code of a lambda was generated, the machine
    reaches the generator's final insertion point, the loop's break or continue block, or a return,
    exactly as the source does, with the same values, variables and memory. */
module Simulation {
  import opened Bits
  import opened Types
  import opened Memory
  import opened Source
  import opened Ir
  import opened Text
  import opened Lowering
  import opened Shapes
  import opened Growth
  import opened Agreement
  import opened Expressions
  import opened Actions

  // ----- finding code in the finished function -----

  lemma IncludedGrows(g: Cfg, h: Cfg, gf: Cfg)
    requires Grows(g, h) && Included(h, gf)
    ensures Included(g, gf)
  {
    forall l | l in g.code
      ensures l in gf.code && g.code[l] <= gf.code[l]
    {
      assert l in h.code && g.code[l] <= h.code[l];
    }
  }

  lemma IncludedMoves(g: Cfg, h: Cfg, ins: seq<Ins>, l: Label, gf: Cfg)
    requires Moves(g, h, ins, l) && Included(h, gf)
    ensures Included(g, gf) && Holds(gf, g.cur, |g.code[g.cur]|, ins)
  {
    assert h.code[g.cur] == g.code[g.cur] + ins;
    assert h.code[g.cur] <= gf.code[g.cur];
    PrefixHolds(gf, g.cur, g.code[g.cur], ins);
    forall m | m in g.code
      ensures m in gf.code && g.code[m] <= gf.code[m]
    {
      assert m in h.code && g.code[m] <= h.code[m];
    }
  }

  lemma PrefixHolds(gf: Cfg, l: Label, before: seq<Ins>, ins: seq<Ins>)
    requires l in gf.code && before + ins <= gf.code[l]
    ensures Holds(gf, l, |before|, ins)
  {
    assert (before + ins)[|before|..] == ins;
    assert gf.code[l][..|before + ins|] == before + ins;
  }

  lemma FetchAt(w: World, fr: Frame, l: Label, i: nat, ins: seq<Ins>, j: nat)
    requires WorldOk(w) && Holds(w.gf, l, i, ins) && j < |ins| && AtPos(w, fr, l, i + j)
    ensures Fetch(w.fns, fr) == Some(ins[j].op)
  {
    var f := w.fns[w.k];
    assert f == Finish(w.gf);
    assert w.gf.code[l][i + j] == w.gf.code[l][i..i + |ins|][j];
    if l == ENTRY {
      assert f.blocks[l][fr.pc] == (AllocaPrefix(w.gf.slots) + w.gf.code[l])[|w.gf.slots| + (i + j)];
    }
  }

  lemma OpsAtHolds(w: World, fr: Frame, l: Label, i: nat, ins: seq<Ins>, ops: seq<Op>)
    requires WorldOk(w) && Holds(w.gf, l, i, ins) && AtPos(w, fr, l, i)
    requires |ops| <= |ins| && forall j :: 0 <= j < |ops| ==> ins[j].op == ops[j]
    ensures OpsAt(w.fns, fr.fn, fr.block, fr.pc, ops)
  {
    var f := w.fns[w.k];
    assert f == Finish(w.gf);
    assert |f.blocks[l]| == Off(w.gf, l) + |w.gf.code[l]|;
    forall j | 0 <= j < |ops|
      ensures f.blocks[l][fr.pc + j].op == ops[j]
    {
      FetchAt(w, fr.(pc := fr.pc + j), l, i, ins, j);
    }
  }

  /** Straight-line code at the current position. */
  lemma StraightGoes(w: World, fr: Frame, ks: Stack, mem: Mem, l: Label, i: nat, ins: seq<Ins>, ops: seq<Op>)
    requires WorldOk(w) && Holds(w.gf, l, i, ins) && AtPos(w, fr, l, i)
    requires |ops| <= |ins| && forall j :: 0 <= j < |ops| ==> ins[j].op == ops[j]
    requires RunOps(ops, fr.slots, Core(fr.regs, mem)).Some?
    ensures var k1 := RunOps(ops, fr.slots, Core(fr.regs, mem)).value;
            var fr1 := fr.(pc := fr.pc + |ops|, regs := k1.regs);
            Goes(w.fns, |ops|, fr, ks, mem, fr1, k1.mem) && AtPos(w, fr1, l, i + |ops|)
  {
    OpsAtHolds(w, fr, l, i, ins, ops);
    StepsOps(w.fns, fr, ks, mem, ops);
  }

  lemma OneStep(fns: seq<Fn>, fr: Frame, ks: Stack, mem: Mem, op: Op)
    requires Fetch(fns, fr) == Some(op)
    ensures Steps(fns, 1, Running(Push(fr, ks), mem)) == Ir.Exec(op, fr, ks, mem)
  {
    var s := Running(Push(fr, ks), mem);
    assert Steps(fns, 1, s) == Steps(fns, 0, Step(fns, s));
  }

  lemma GoesTrans(fns: seq<Fn>, m: nat, n: nat, ks: Stack, fr: Frame, mem: Mem, fr1: Frame, mem1: Mem, fr2: Frame,
      mem2: Mem)
    requires Goes(fns, m, fr, ks, mem, fr1, mem1) && Goes(fns, n, fr1, ks, mem1, fr2, mem2)
    ensures Goes(fns, m + n, fr, ks, mem, fr2, mem2)
  {
    StepsAdd(fns, m, n, Running(Push(fr, ks), mem));
  }

  // ----- scopes -----

  /** A match in an inner, later scope restricts to the scope it was opened from. */
  lemma Restrict(tys: seq<Ty>, ls: Locals, st: SState, nr: nat, ns: nat, fr0: Frame, mem0: Mem,
                 ls1: Locals, st1: SState, nr1: nat, ns1: nat, fr: Frame, mem: Mem)
    requires StateMatch(tys, ls, st, nr, ns, fr0, mem0) && StateMatch(tys, ls1, st1, nr1, ns1, fr, mem)
    requires ls.vals <= ls1.vals && ls.vars <= ls1.vars && st.env <= st1.env && |st.vars| <= |st1.vars|
    requires FrameKept(fr0, fr, nr)
    ensures StateMatch(tys, ls, SState(st.env, st1.vars[..|st.vars|], st1.heap), nr, ns, fr, mem)
  {
    ValsKept(ls.vals, st.env, fr0.regs, fr.regs, nr, nr);
    var cells := st1.vars[..|st.vars|];
    forall i | 0 <= i < |ls.vars|
      ensures VarMatch(tys, ns, ls.vars[i], cells[i], fr.slots, mem)
    {
      assert VarMatch(tys, ns, ls.vars[i], st.vars[i], fr0.slots, mem0);
      assert VarMatch(tys, ns1, ls1.vars[i], st1.vars[i], fr.slots, mem);
    }
  }

  lemma StateWider(tys: seq<Ty>, ls: Locals, st: SState, nr: nat, nr1: nat, ns: nat, ns1: nat, fr: Frame, fr1: Frame,
      mem: Mem)
    requires StateMatch(tys, ls, st, nr, ns, fr, mem) && nr <= nr1 && ns <= ns1 <= |tys| && FrameKept(fr, fr1, nr)
    ensures StateMatch(tys, ls, st, nr1, ns1, fr1, mem)
  {
    StateKept(tys, ls, st, nr, nr1, ns, fr, fr1, mem);
    forall i | 0 <= i < |ls.vars|
      ensures VarMatch(tys, ns1, ls.vars[i], st.vars[i], fr.slots, mem)
    {
      assert VarMatch(tys, ns, ls.vars[i], st.vars[i], fr.slots, mem);
    }
  }

  /** A simulation that starts n1 steps further on, in an inner scope, is one from here. */
  lemma Later(w: World, o: Outcome, fuel: nat, fuel2: nat, ls: Locals, st: SState, g: Cfg,
              ls1: Locals, st1: SState, g1: Cfg, g': Cfg, fr: Frame, ks: Stack, mem: Mem, n1: nat, fr1: Frame,
              mem1: Mem,
              n2: nat, fr': Frame, mem': Mem)
    requires StateMatch(w.gf.slots, ls, st, g.nextReg, |g.slots|, fr, mem)
    requires Goes(w.fns, n1, fr, ks, mem, fr1, mem1)
    requires FrameKept(fr, fr1, g.nextReg) && MemKept(mem, mem1, st.heap, fr.base)
    requires InnerScope(ls, st, g, ls1, st1, g1) && fuel <= n1 + fuel2 &&
             (o.Broke? || o.Continued? ==> g1.loop == g.loop)
    requires Simulated(w, o, fuel2, ls1, st1, g1, g', fr1, ks, mem1, n2, fr', mem')
    ensures Simulated(w, o, fuel, ls, st, g, g', fr, ks, mem, n1 + n2, fr', mem')
  {
    var fns := w.fns;
    StepsAdd(fns, n1, n2, Running(Push(fr, ks), mem));
    match o
    case Wrong =>
    case Timeout =>
    case Returned(_, _) =>
    case Normal(vars, heap) => LaterResumes(w, ls, st, g, ls1, st1, g1, vars, heap, fr,
        ks, mem, n1, fr1, mem1, n2, fr', mem');
    case Broke(vars, heap) => LaterResumes(w, ls, st, g, ls1, st1, g1, vars, heap, fr,
        ks, mem, n1, fr1, mem1, n2, fr', mem');
    case Continued(vars, heap) => LaterResumes(w, ls, st, g, ls1, st1, g1, vars, heap, fr, ks, mem, n1, fr1, mem1, n2,
        fr', mem');
  }

  lemma LaterResumes(w: World, ls: Locals, st: SState, g: Cfg, ls1: Locals, st1: SState, g1: Cfg, vars: seq<Cell>,
      heap: Mem,
                     fr: Frame, ks: Stack, mem: Mem, n1: nat, fr1: Frame, mem1: Mem, n2: nat, fr': Frame, mem': Mem)
    requires StateMatch(w.gf.slots, ls, st, g.nextReg, |g.slots|, fr, mem)
    requires Goes(w.fns, n1, fr, ks, mem, fr1, mem1)
    requires FrameKept(fr, fr1, g.nextReg) && MemKept(mem, mem1, st.heap, fr.base)
    requires InnerScope(ls, st, g, ls1, st1, g1)
    requires Resumes(w, ls1, st1, vars, heap, g1, fr1, ks, mem1, n2, fr', mem')
    ensures Resumes(w, ls, st, vars, heap, g, fr, ks, mem, n1 + n2, fr', mem')
  {
    GoesTrans(w.fns, n1, n2, ks, fr, mem, fr1, mem1, fr', mem');
    Restrict(w.gf.slots, ls, st, g.nextReg, |g.slots|, fr, mem,
             ls1, SState(st1.env, vars[..|st1.vars|], heap), g1.nextReg, |g1.slots|, fr', mem');
    assert vars[..|st1.vars|][..|st.vars|] == vars[..|st.vars|];
  }

  // ----- exits -----

  lemma AppendedHolds(g: Cfg, h: Cfg, ins: seq<Ins>, gf: Cfg)
    requires g.cur in g.code && h.code == g.code[g.cur := g.code[g.cur] + ins] && Included(h, gf)
    ensures Holds(gf, g.cur, |g.code[g.cur]|, ins)
  {
    assert h.code[g.cur] <= gf.code[g.cur];
    PrefixHolds(gf, g.cur, g.code[g.cur], ins);
  }

  lemma BranchGoes(w: World, fr: Frame, ks: Stack, mem: Mem, l: Label, i: nat, ins: seq<Ins>, target: Label)
    requires WorldOk(w) && Holds(w.gf, l, i, ins) && |ins| == 1 && ins[0].op == IBr(target) && AtPos(w, fr, l, i)
    ensures Goes(w.fns, 1, fr, ks, mem, fr.(block := target, pc := 0), mem)
  {
    FetchAt(w, fr, l, i, ins, 0);
    OneStep(w.fns, fr, ks, mem, IBr(target));
  }

  lemma JumpResumes(w: World, ls: Locals, st: SState, g: Cfg, fr: Frame, ks: Stack, mem: Mem, l: Label)
    requires StateMatch(w.gf.slots, ls, st, g.nextReg, |g.slots|, fr, mem)
    requires Goes(w.fns, 1, fr, ks, mem, fr.(block := l, pc := 0), mem)
    ensures Resumes(w, ls, st, st.vars, st.heap, g, fr, ks, mem, 1, fr.(block := l, pc := 0), mem)
  {
    assert SState(st.env, st.vars[..|st.vars|], st.heap) == st;
    StateKept(w.gf.slots, ls, st, g.nextReg, g.nextReg, |g.slots|, fr, fr.(block := l, pc := 0), mem);
  }

  lemma SimBreak(w: World, fuel: nat, ls: Locals, st: SState, b: Builder, fr: Frame, ks: Stack, mem: Mem)
    returns (n: nat, fr': Frame, mem': Mem)
    requires WorldOk(w) && Ready(w, Break, ls, st, b, fr, mem)
    ensures Simulated(w, Broke(st.vars, st.heap), fuel, ls, st, b.cfg, Lower(Break, ls, b).cfg,
            fr, ks, mem, n, fr', mem')
  {
    var target := b.cfg.loop.breakBlock;
    var ins := WithLoc([IBr(target)], Loc(CurrentLine(b), b.scope));
    ExitShape(b, "break;", [IBr(target)], b.cfg.nextReg);
    AppendedHolds(b.cfg, Lower(Break, ls, b).cfg, ins, w.gf);
    BranchGoes(w, fr, ks, mem, b.cfg.cur, |b.cfg.code[b.cfg.cur]|, ins, target);
    JumpResumes(w, ls, st, b.cfg, fr, ks, mem, target);
    n, fr', mem' := 1, fr.(block := target, pc := 0), mem;
  }

  lemma SimContinue(w: World, fuel: nat, ls: Locals, st: SState, b: Builder, fr: Frame, ks: Stack, mem: Mem)
    returns (n: nat, fr': Frame, mem': Mem)
    requires WorldOk(w) && Ready(w, Continue, ls, st, b, fr, mem)
    ensures Simulated(w, Continued(st.vars, st.heap), fuel, ls, st, b.cfg, Lower(Continue, ls, b).cfg, fr, ks, mem, n,
            fr', mem')
  {
    var target := b.cfg.loop.continueBlock;
    var ins := WithLoc([IBr(target)], Loc(CurrentLine(b), b.scope));
    ExitShape(b, "continue;", [IBr(target)], b.cfg.nextReg);
    AppendedHolds(b.cfg, Lower(Continue, ls, b).cfg, ins, w.gf);
    BranchGoes(w, fr, ks, mem, b.cfg.cur, |b.cfg.code[b.cfg.cur]|, ins, target);
    JumpResumes(w, ls, st, b.cfg, fr, ks, mem, target);
    n, fr', mem' := 1, fr.(block := target, pc := 0), mem;
  }

  lemma SimReturnVoid(w: World, fuel: nat, ls: Locals, st: SState, b: Builder, fr: Frame, ks: Stack, mem: Mem)
    returns (n: nat, fr': Frame, mem': Mem)
    requires WorldOk(w) && Ready(w, ReturnVoid, ls, st, b, fr, mem)
    ensures Simulated(w, Returned(None, st.heap), fuel, ls, st, b.cfg, Lower(ReturnVoid, ls, b).cfg, fr, ks, mem, n,
            fr', mem')
  {
    hide ValsMatch, VarsMatch, Included, Sane, Grows;
    var ins := WithLoc([IRet(None)], Loc(CurrentLine(b), b.scope));
    ExitShape(b, "return;", [IRet(None)], b.cfg.nextReg);
    AppendedHolds(b.cfg, Lower(ReturnVoid, ls, b).cfg, ins, w.gf);
    FetchAt(w, fr, b.cfg.cur, |b.cfg.code[b.cfg.cur]|, ins, 0);
    OneStep(w.fns, fr, ks, mem, IRet(None));
    n, fr', mem' := 1, fr, mem;
  }

  lemma SimReturn(w: World, fuel: nat, e: Expr, ls: Locals, st: SState, b: Builder, fr: Frame, ks: Stack, mem: Mem)
    returns (n: nat, fr': Frame, mem': Mem)
    requires WorldOk(w) && Ready(w, Return(e), ls, st, b, fr, mem) && Eval(e, st.env).Some?
    ensures Simulated(w, Returned(Some(SVal(TypeOf(e), Eval(e, st.env).value)), st.heap), fuel, ls, st,
                      b.cfg, Lower(Return(e), ls, b).cfg, fr, ks, mem, n, fr', mem')
  {
    hide ValsMatch, VarsMatch, Included, Emitted;
    var c, v := Emitted(e, ls.vals, b.cfg.nextReg), Eval(e, st.env).value;
    var ops := c.ops + [IRet(Some(c.res))];
    var ins := WithLoc(ops, Loc(CurrentLine(b), b.scope));
    EmittedNext(e, ls.vals, b.cfg.nextReg);
    ExitShape(b, "return " + Show(e, ls.vals) + ";", ops, c.next);
    AppendedHolds(b.cfg, Lower(Return(e), ls, b).cfg, ins, w.gf);
    EmittedComputes(e, ls.vals, st.env, b.cfg.nextReg, fr.slots, Core(fr.regs, mem));
    assert OpsOf(ins) == ops;
    n, fr', mem' := ReturnGoes(w, fr, ks, mem, b.cfg.cur, |b.cfg.code[b.cfg.cur]|, ins, c, b.cfg.nextReg,
        PatOf(TypeOf(e), v));
  }

  /** Computing an operand, up to the control instruction that uses it. */
  lemma ComputeGoes(w: World, fr: Frame, ks: Stack, mem: Mem, l: Label, i: nat, ins: seq<Ins>, c: ExprCode, r: nat,
      p: nat, last: Op)
    returns (fr0: Frame)
    requires WorldOk(w) && Holds(w.gf, l, i, ins) && AtPos(w, fr, l, i) && OpsOf(ins) == c.ops + [last]
    requires Computes(c, r, fr.slots, Core(fr.regs, mem), p)
    ensures Goes(w.fns, |c.ops|, fr, ks, mem, fr0, mem) && FrameKept(fr, fr0, r)
    ensures Fetch(w.fns, fr0) == Some(last) && OpVal(c.res, fr0.regs, fr0.slots) == Some(p)
  {
    forall j | 0 <= j < |c.ops|
      ensures ins[j].op == c.ops[j]
    {
      assert OpsOf(ins)[j] == c.ops[j];
    }
    StraightGoes(w, fr, ks, mem, l, i, ins, c.ops);
    fr0 := fr.(pc := fr.pc + |c.ops|, regs := After(c.ops, fr.slots, Core(fr.regs, mem)).regs);
    assert OpsOf(ins)[|c.ops|] == last;
    FetchAt(w, fr0, l, i, ins, |c.ops|);
  }

  lemma ReturnGoes(w: World, fr: Frame, ks: Stack, mem: Mem, l: Label, i: nat, ins: seq<Ins>, c: ExprCode, r: nat,
      p: nat)
    returns (n: nat, fr': Frame, mem': Mem)
    requires WorldOk(w) && Holds(w.gf, l, i, ins) && AtPos(w, fr, l, i) && OpsOf(ins) == c.ops + [IRet(Some(c.res))]
    requires Computes(c, r, fr.slots, Core(fr.regs, mem), p)
    ensures Steps(w.fns, n, Running(Push(fr, ks), mem)) == ReturnTo(Some(p), fr.dst, ks, mem') && mem' == mem
  {
    hide Holds, WorldOk, Computes, OpsOf, Fetch;
    fr' := ComputeGoes(w, fr, ks, mem, l, i, ins, c, r, p, IRet(Some(c.res)));
    OneStep(w.fns, fr', ks, mem, IRet(Some(c.res)));
    StepsAdd(w.fns, |c.ops|, 1, Running(Push(fr, ks), mem));
    n, mem' := |c.ops| + 1, mem;
  }

  // ----- tests -----

  /** Evaluating a condition and branching on it. */
  lemma TestGoes(w: World, e: Expr, ls: Locals, st: SState, g: Cfg, ins: seq<Ins>, yes: Label, no: Label,
                 fr: Frame, ks: Stack, mem: Mem, l: Label, i: nat)
    returns (n: nat, fr1: Frame)
    requires WorldOk(w) && Holds(w.gf, l, i, ins) && AtPos(w, fr, l, i)
    requires ValsMatch(ls.vals, st.env, fr.regs, g.nextReg) && EvalTest(e, st.env).Some?
    requires OpsOf(ins) == Emitted(e, ls.vals, g.nextReg).ops + [ICondBr(Emitted(e, ls.vals, g.nextReg).res, yes, no)]
    ensures n >= 1 && Goes(w.fns, n, fr, ks, mem, fr1, mem) && FrameKept(fr, fr1, g.nextReg)
    ensures fr1.block == (if EvalTest(e, st.env).value then yes else no) && fr1.pc == 0
  {
    hide Holds, Computes, Emitted, Eval;
    var c, v, k := Emitted(e, ls.vals, g.nextReg), Eval(e, st.env).value, Core(fr.regs, mem);
    EmittedComputes(e, ls.vals, st.env, g.nextReg, fr.slots, k);
    BoolRange(v);
    var fr0 := ComputeGoes(w, fr, ks, mem, l, i, ins, c, g.nextReg, v, ICondBr(c.res, yes, no));
    OneStep(w.fns, fr0, ks, mem, ICondBr(c.res, yes, no));
    fr1 := fr0.(block := if v != 0 then yes else no, pc := 0);
    GoesTrans(w.fns, |c.ops|, 1, ks, fr, mem, fr0, mem, fr1, mem);
    n := |c.ops| + 1;
  }

  lemma BoolRange(v: int)
    requires InRange(TBool, v)
    ensures (v == 0 || v == 1) && PatOf(TBool, v) == v
  {
    assert Pow2(1) == 2;
  }
}
