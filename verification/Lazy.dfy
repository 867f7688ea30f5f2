/** Expression trees are lazy: their code is emitted where they are used. This file follows a run of a
    lambda to any later point, through statements, arms, loop iterations and calls, and shows that a tree
    used there still has the value it had when its leaves were read. */
module Lazy {
  import opened Types
  import opened Memory
  import opened Source
  import opened Ir
  import opened Text
  import opened Lowering
  import opened Shapes
  import opened Growth
  import opened Agreement
  import opened Expressions
  import opened Simulation
  import opened Preservation
  import opened Laws

  // ----- points of a run -----

  /** About to run c; or, if `again`, back at the header of the loop c after an iteration. */
  datatype Point = Point(c: Code, ls: Locals, st: SState, b: Builder, again: bool)

  /** To the next statement, into the arm or loop body about to be run, or once round the loop. */
  datatype Move = Over | Into | Round

  ghost function Next(src: seq<FnDef>, k: nat, fuel: nat, p: Point, m: Move): Option<Point> {
    match p.c
    case Act(a, next) => NextAct(a, next, p, m)
    case Call(fn, args, next) => NextCall(src, k, fuel, fn, args, next, p, m)
    case If(e, t, f, next) => NextIf(src, k, fuel, e, t, f, next, p, m)
    case IfThen(e, t, next) => NextIfThen(src, k, fuel, e, t, next, p, m)
    case While(cnd, body, next) => NextWhile(src, k, fuel, cnd, body, next, p, m)
    case _ => None
  }

  ghost function NextAct(a: Action, next: Code, p: Point, m: Move): Option<Point> {
    match (m, Do(a, p.st))
    case (Over, Some(st)) => Some(Point(next, ActionLocals(a, p.ls, p.b), st, LowerAction(a, p.ls, p.b), false))
    case _ => None
  }

  ghost function NextCall(src: seq<FnDef>, k: nat, fuel: nat, fn: FnRef, args: seq<Expr>, next: Code, p: Point,
      m: Move): Option<Point>
  {
    match (m, EvalArgs(args, p.st.env))
    case (Over, Some(vs)) =>
      if !CallOk(src, k, fn, vs) then None
      else (match Run(src, fn.idx, fuel, src[fn.idx].body, SState(vs, [], p.st.heap))
            case Returned(v, h) =>
              Some(Point(next, CallLocals(fn, args, p.ls, p.b), AfterCall(v, h, p.st),
                LowerCall(fn, args, p.ls, p.b), false))
            case _ => None)
    case _ => None
  }

  /** The builder at the start of an if_'s arm. */
  function ArmStart(e: Expr, t: Code, v: bool, ls: Locals, b: Builder): Builder {
    if v then IfHead(e, ls, b) else IfElse(b, Lower(t, ls, IfHead(e, ls, b)))
  }

  function IfJoin(e: Expr, t: Code, f: Code, ls: Locals, b: Builder): Builder {
    IfEnd(b, Lower(f, ls, IfElse(b, Lower(t, ls, IfHead(e, ls, b)))))
  }

  ghost function NextIf(src: seq<FnDef>, k: nat, fuel: nat, e: Expr, t: Code, f: Code, next: Code, p: Point,
      m: Move): Option<Point>
  {
    match (EvalTest(e, p.st.env), m)
    case (Some(v), Into) => Some(Point(if v then t else f, p.ls, p.st, ArmStart(e, t, v, p.ls, p.b), false))
    case (Some(v), Over) =>
      (match Run(src, k, fuel, if v then t else f, p.st)
       case Normal(vars, heap) => Some(Point(next, p.ls, Leave(p.st, vars, heap), IfJoin(e, t, f, p.ls, p.b), false))
       case _ => None)
    case _ => None
  }

  ghost function NextIfThen(src: seq<FnDef>, k: nat, fuel: nat, e: Expr, t: Code, next: Code, p: Point,
      m: Move): Option<Point>
  {
    var b1 := IfThenHead(e, p.ls, p.b);
    var b3 := IfThenEnd(p.b, Lower(t, p.ls, b1));
    match (EvalTest(e, p.st.env), m)
    case (Some(true), Into) => Some(Point(t, p.ls, p.st, b1, false))
    case (Some(false), Over) => Some(Point(next, p.ls, p.st, b3, false))
    case (Some(true), Over) =>
      (match Run(src, k, fuel, t, p.st)
       case Normal(vars, heap) => Some(Point(next, p.ls, Leave(p.st, vars, heap), b3, false))
       case _ => None)
    case _ => None
  }

  function LoopJoin(cnd: Cond, body: Code, ls: Locals, b: Builder): Builder {
    WhileEnd(b, Lower(body, ls, WhileHead(cnd, ls, b)))
  }

  ghost function NextWhile(src: seq<FnDef>, k: nat, fuel: nat, cnd: Cond, body: Code, next: Code, p: Point,
      m: Move): Option<Point>
  {
    match (EvalCond(cnd, p.st), m)
    case (Some(true), Into) => Some(Point(body, p.ls, p.st, WhileHead(cnd, p.ls, p.b), false))
    case (Some(false), Over) => Some(Point(next, p.ls, p.st, LoopJoin(cnd, body, p.ls, p.b), false))
    case (Some(true), Over) =>
      (match Run(src, k, fuel, body, p.st)
       case Broke(vars, heap) => Some(Point(next, p.ls, Leave(p.st, vars, heap), LoopJoin(cnd, body, p.ls, p.b), false))
       case _ => None)
    case (Some(true), Round) =>
      (match Run(src, k, fuel, body, p.st)
       case Normal(vars, heap) => Some(Point(p.c, p.ls, Leave(p.st, vars, heap), p.b, true))
       case Continued(vars, heap) => Some(Point(p.c, p.ls, Leave(p.st, vars, heap), p.b, true))
       case _ => None)
    case _ => None
  }

  ghost function Follow(src: seq<FnDef>, k: nat, fuel: nat, p: Point, moves: seq<Move>): Option<Point>
    decreases |moves|
  {
    if moves == [] then Some(p)
    else match Next(src, k, fuel, p, moves[0])
      case None => None
      case Some(q) => Follow(src, k, fuel, q, moves[1..])
  }

  // ----- the machine gets there -----

  /** The machine is at the header of the loop p.c. */
  ghost predicate AtHeader(w: World, p: Point, fr: Frame, mem: Mem) {
    p.c.While? &&
    var b3, b5 := WhileEntry(p.c.cnd, p.ls, p.b), WhileHead(p.c.cnd, p.ls, p.b);
    LoopLaidOut(w, p.c.body, p.c.next, p.ls, p.b, b3, b5, Lower(p.c.body, p.ls, b5),
        LoopJoin(p.c.cnd, p.c.body, p.ls, p.b),
                HeaderIns(p.c.cnd, p.ls, p.b, b3)) &&
    fr.fn == w.k && fr.block == ContinueOf(p.b) && fr.pc == 0 &&
    StateMatch(w.gf.slots, p.ls, p.st, p.b.cfg.nextReg, |p.b.cfg.slots|, fr, mem)
  }

  ghost predicate Reached(w: World, p: Point, fr: Frame, mem: Mem) {
    if p.again then AtHeader(w, p, fr, mem) else Ready(w, p.c, p.ls, p.st, p.b, fr, mem)
  }

  lemma ReachedMatch(w: World, p: Point, fr: Frame, mem: Mem)
    requires Reached(w, p, fr, mem)
    ensures StateMatch(w.gf.slots, p.ls, p.st, p.b.cfg.nextReg, |p.b.cfg.slots|, fr, mem)
  {}

  /** An arm has fallen through: the machine comes to the statement after the if_. */
  lemma ThroughArm(w: World, arm: Code, next: Code, fuel: nat, ls: Locals, st: SState, b: Builder, bArm: Builder,
      bJoin: Builder,
                   join: Label, fr: Frame, ks: Stack, mem: Mem, n1: nat, fr1: Frame)
    returns (n: nat, fr': Frame, mem': Mem)
    requires WorldOk(w) && ProgramOk(w.src, w.fns)
    requires StateMatch(w.gf.slots, ls, st, b.cfg.nextReg, |b.cfg.slots|, fr, mem)
    requires Goes(w.fns, n1, fr, ks, mem, fr1, mem) && FrameKept(fr, fr1, b.cfg.nextReg)
    requires Ready(w, arm, ls, st, bArm, fr1, mem) && b.cfg.nextReg <= bArm.cfg.nextReg
    requires JoinsTo(w, b, bJoin) && CloseHolds(w.gf, Lower(arm, ls, bArm), join) && Joined(w, next, ls, bJoin, join)
    requires Run(w.src, w.k, fuel, arm, st).Normal?
    ensures var o := Run(w.src, w.k, fuel, arm, st);
            Goes(w.fns, n, fr, ks, mem, fr', mem') && Ready(w, next, ls, Leave(st, o.vars, o.heap), bJoin, fr', mem')
  {
    hide Simulated, StateMatch, Goes, MemKept, FrameKept, Holds, CloseHolds, Included, Run, Lower, WorldOk, ProgramOk,
         Resumes, Ready;
    var o, bEnd := Run(w.src, w.k, fuel, arm, st), Lower(arm, ls, bArm);
    var n2, fr2, mem2 := Sim(w, arm, fuel, ls, st, bArm, fr1, ks, mem);
    BodyOutcome(w, o, fuel, ls, st, bArm.cfg, bEnd.cfg, fr1, ks, mem, n2, fr2, mem2);
    SameMemory(mem, st.heap, fr.base);
    LaterResumes(w, ls, st, b.cfg, ls, st, bArm.cfg, o.vars, o.heap, fr, ks, mem, n1, fr1, mem, n2, fr2, mem2);
    fr' := ReachJoin(w, ls, st, o.vars, o.heap, b.cfg, bEnd, join, bJoin.cfg, fr, ks, mem, n1 + n2, fr2, mem2);
    JoinReady(w, next, ls, Leave(st, o.vars, o.heap), bJoin, join, fr', mem2);
    n, mem' := n1 + n2 + 1, mem2;
  }

  lemma SameMemory(mem: Mem, heap: Mem, base: nat)
    ensures MemKept(mem, mem, heap, base)
  {}

  lemma IntoArm(w: World, e: Expr, t: Code, f: Code, next: Code, ls: Locals, st: SState, b: Builder, fr: Frame,
      ks: Stack, mem: Mem)
    returns (n: nat, fr1: Frame)
    requires WorldOk(w) && Ready(w, If(e, t, f, next), ls, st, b, fr, mem) && EvalTest(e, st.env).Some?
    ensures var v := EvalTest(e, st.env).value;
            var bArm, arm := ArmStart(e, t, v, ls, b), if v then t else f;
            Goes(w.fns, n, fr, ks, mem, fr1, mem) && FrameKept(fr, fr1, b.cfg.nextReg) &&
            Ready(w, arm, ls, st, bArm, fr1, mem) &&
            b.cfg.nextReg <= bArm.cfg.nextReg && JoinsTo(w, b, IfJoin(e, t, f, ls, b)) &&
            CloseHolds(w.gf, Lower(arm, ls, bArm), MergeOf(b)) &&
            Joined(w, next, ls, IfJoin(e, t, f, ls, b), MergeOf(b))
  {
    hide Holds, CloseHolds, Lower, IfHead, IfElse, IfEnd, StateMatch, TestIns, Goes, FrameKept, Sane;
    assert Lower(If(e, t, f, next), ls, b) == LowerIf(e, t, f, next, ls, b) by {
      LowerIs(e, t, f, next, ls, b);
    }
    IfParts(w, e, t, f, next, ls, b);
    TestOps(e, ls, b, TrueOf(b), FalseOf(b));
    MatchVals(w, ls, st, b, fr, mem);
    n, fr1 := TestGoes(w, e, ls, st, b.cfg, TestIns(e, ls, b, TrueOf(b), FalseOf(b)), TrueOf(b), FalseOf(b),
                       fr, ks, mem, b.cfg.cur, |b.cfg.code[b.cfg.cur]|);
    KeptFn(fr, fr1, b.cfg.nextReg);
    var v := EvalTest(e, st.env).value;
    var bArm := ArmStart(e, t, v, ls, b);
    StateWider(w.gf.slots, ls, st, b.cfg.nextReg, bArm.cfg.nextReg, |b.cfg.slots|, |bArm.cfg.slots|, fr, fr1, mem);
    JoinReady(w, if v then t else f, ls, st, bArm, if v then TrueOf(b) else FalseOf(b), fr1, mem);
  }

  lemma LowerIs(e: Expr, t: Code, f: Code, next: Code, ls: Locals, b: Builder)
    ensures Lower(If(e, t, f, next), ls, b) == LowerIf(e, t, f, next, ls, b)
    ensures Lower(IfThen(e, t, next), ls, b) == LowerIfThen(e, t, next, ls, b)
  {
    hide LowerIf, LowerIfThen;
  }

  lemma MatchVals(w: World, ls: Locals, st: SState, b: Builder, fr: Frame, mem: Mem)
    requires StateMatch(w.gf.slots, ls, st, b.cfg.nextReg, |b.cfg.slots|, fr, mem)
    ensures ValsMatch(ls.vals, st.env, fr.regs, b.cfg.nextReg)
  {}

  lemma IfGoes(w: World, fuel: nat, p: Point, m: Move, fr: Frame, ks: Stack, mem: Mem)
    returns (n: nat, fr': Frame, mem': Mem)
    requires WorldOk(w) && ProgramOk(w.src, w.fns) && p.c.If? && Ready(w, p.c, p.ls, p.st, p.b, fr, mem)
    requires NextIf(w.src, w.k, fuel, p.c.test, p.c.yes, p.c.no, p.c.next, p, m).Some?
    ensures var q := NextIf(w.src, w.k, fuel, p.c.test, p.c.yes, p.c.no, p.c.next, p, m).value;
            Goes(w.fns, n, fr, ks, mem, fr', mem') && Ready(w, q.c, q.ls, q.st, q.b, fr', mem')
  {
    hide Holds, CloseHolds, StateMatch, Goes, FrameKept, Included, Run, Lower, WorldOk, ProgramOk, ArmStart, IfJoin,
         EvalTest, Joined, JoinsTo;
    var e, t, f, next := p.c.test, p.c.yes, p.c.no, p.c.next;
    var v := EvalTest(e, p.st.env).value;
    n, fr' := IntoArm(w, e, t, f, next, p.ls, p.st, p.b, fr, ks, mem);
    mem' := mem;
    if m == Over {
      n, fr', mem' := ThroughArm(w, if v then t else f, next, fuel, p.ls, p.st, p.b, ArmStart(e, t, v, p.ls, p.b),
                                 IfJoin(e, t, f, p.ls, p.b), MergeOf(p.b), fr, ks, mem, n, fr');
    }
  }

  lemma IfThenGoes(w: World, fuel: nat, p: Point, m: Move, fr: Frame, ks: Stack, mem: Mem)
    returns (n: nat, fr': Frame, mem': Mem)
    requires WorldOk(w) && ProgramOk(w.src, w.fns) && p.c.IfThen? && Ready(w, p.c, p.ls, p.st, p.b, fr, mem)
    requires NextIfThen(w.src, w.k, fuel, p.c.test, p.c.yes, p.c.next, p, m).Some?
    ensures var q := NextIfThen(w.src, w.k, fuel, p.c.test, p.c.yes, p.c.next, p, m).value;
            Goes(w.fns, n, fr, ks, mem, fr', mem') && Ready(w, q.c, q.ls, q.st, q.b, fr', mem')
  {
    hide Holds, CloseHolds, Lower, IfThenHead, IfThenEnd, StateMatch, TestIns, Goes, FrameKept, Sane, Run, Joined,
         JoinsTo;
    var e, t, next, ls, st, b := p.c.test, p.c.yes, p.c.next, p.ls, p.st, p.b;
    LowerIs(e, t, Done, next, ls, b);
    IfThenParts(w, e, t, next, ls, b);
    TestOps(e, ls, b, TrueOf(b), MergeOnlyOf(b));
    MatchVals(w, ls, st, b, fr, mem);
    n, fr' := TestGoes(w, e, ls, st, b.cfg, TestIns(e, ls, b, TrueOf(b), MergeOnlyOf(b)), TrueOf(b), MergeOnlyOf(b),
                       fr, ks, mem, b.cfg.cur, |b.cfg.code[b.cfg.cur]|);
    mem' := mem;
    KeptFn(fr, fr', b.cfg.nextReg);
    var b1 := IfThenHead(e, ls, b);
    var b3 := IfThenEnd(b, Lower(t, ls, b1));
    if EvalTest(e, st.env).value {
      Opens(w, t, ls, st, b, b1, TrueOf(b), fr, fr', mem);
      if m == Over {
        ScopeOpened(w, b, b1);
        n, fr', mem' := ThroughArm(w, t, next, fuel, ls, st, b, b1, b3, MergeOnlyOf(b), fr, ks, mem, n, fr');
      }
    } else {
      Opens(w, next, ls, st, b, b3, MergeOnlyOf(b), fr, fr', mem);
    }
  }

  lemma ScopeOpened(w: World, b: Builder, b1: Builder)
    requires JoinsTo(w, b, b1)
    ensures b.cfg.nextReg <= b1.cfg.nextReg
  {}

  /** A block the machine has branched to is ready to run. */
  lemma Opens(w: World, c: Code, ls: Locals, st: SState, b: Builder, b1: Builder, l: Label, fr: Frame, fr1: Frame,
      mem: Mem)
    requires StateMatch(w.gf.slots, ls, st, b.cfg.nextReg, |b.cfg.slots|, fr, mem) && FrameKept(fr, fr1, b.cfg.nextReg)
    requires Joined(w, c, ls, b1, l) && JoinsTo(w, b, b1) && fr1.fn == w.k && fr1.block == l && fr1.pc == 0
    ensures Ready(w, c, ls, st, b1, fr1, mem)
  {
    hide StateMatch, FrameKept;
    StateWider(w.gf.slots, ls, st, b.cfg.nextReg, b1.cfg.nextReg, |b.cfg.slots|, |b1.cfg.slots|, fr, fr1, mem);
    JoinReady(w, c, ls, st, b1, l, fr1, mem);
  }

  /** Before a loop, or back at it, the machine comes to its header. */
  lemma ToHeader(w: World, p: Point, fr: Frame, ks: Stack, mem: Mem) returns (n: nat, fr': Frame, mem': Mem)
    requires WorldOk(w) && p.c.While? && Reached(w, p, fr, mem) && EvalCond(p.c.cnd, p.st).Some?
    ensures Goes(w.fns, n, fr, ks, mem, fr', mem') && AtHeader(w, p, fr', mem')
  {
    if p.again {
      n, fr', mem' := 0, fr, mem;
    } else {
      hide LoopLaidOut, StateMatch, Goes, FrameKept, MemKept, Holds, Included, Lower, WhileEntry, WhileTest, WhileEnd,
           LoopOk, HeaderIns, EntryIns, WorldOk;
      LowerWhileIs(p.c.cnd, p.c.body, p.c.next, p.ls, p.b);
      WhileParts(w, p.c.cnd, p.c.body, p.c.next, p.ls, p.b);
      n, fr', mem' := EntryGoes(w, p.c.cnd, p.ls, p.st, p.b, fr, ks, mem);
    }
  }

  lemma LowerWhileIs(cnd: Cond, body: Code, next: Code, ls: Locals, b: Builder)
    ensures Lower(While(cnd, body, next), ls, b) == LowerWhile(cnd, body, next, ls, b)
  {}

  /** What the loop's blocks are for. */
  lemma LoopParts(w: World, p: Point, fr: Frame, mem: Mem)
    requires AtHeader(w, p, fr, mem)
    ensures var b3, b5 := WhileEntry(p.c.cnd, p.ls, p.b), WhileHead(p.c.cnd, p.ls, p.b);
            Holds(w.gf, ContinueOf(p.b), 0, HeaderIns(p.c.cnd, p.ls, p.b, b3)) && |p.b.cfg.slots| == |b3.cfg.slots| &&
            p.b.cfg.nextReg <= b3.cfg.nextReg && p.b.cfg.nextReg <= b5.cfg.nextReg &&
            |p.b.cfg.slots| <= |b5.cfg.slots| <= |w.gf.slots| &&
            Joined(w, p.c.body, p.ls, b5, IterationOf(p.b)) && b5.cfg.loop == InLoop(ContinueOf(p.b), BreakOf(p.b)) &&
            CloseHolds(w.gf, Lower(p.c.body, p.ls, b5), ContinueOf(p.b)) &&
            Joined(w, p.c.next, p.ls, LoopJoin(p.c.cnd, p.c.body, p.ls, p.b), BreakOf(p.b)) &&
            JoinsTo(w, p.b, LoopJoin(p.c.cnd, p.c.body, p.ls, p.b))
  {
    hide Joined, JoinsTo, CloseHolds, Holds, Lower, WhileEntry, WhileTest, HeaderIns, StateMatch;
  }

  /** From the header, the condition is tested and the machine branches. */
  lemma TestLoop(w: World, p: Point, fr: Frame, ks: Stack, mem: Mem) returns (n: nat, fr': Frame, mem': Mem)
    requires WorldOk(w) && AtHeader(w, p, fr, mem) && EvalCond(p.c.cnd, p.st).Some?
    ensures Goes(w.fns, n, fr, ks, mem, fr', mem') && FrameKept(fr, fr', p.b.cfg.nextReg) &&
            MemKept(mem, mem', p.st.heap, fr.base)
    ensures StateMatch(w.gf.slots, p.ls, p.st, p.b.cfg.nextReg, |p.b.cfg.slots|, fr', mem')
    ensures if EvalCond(p.c.cnd, p.st).value then
            Ready(w, p.c.body, p.ls, p.st, WhileHead(p.c.cnd, p.ls, p.b), fr', mem')
            else Ready(w, p.c.next, p.ls, p.st, LoopJoin(p.c.cnd, p.c.body, p.ls, p.b), fr', mem')
  {
    hide StateMatch, Goes, FrameKept, MemKept, Holds, CloseHolds, Lower, WhileEntry, WhileHead, WhileTest, LoopJoin,
         HeaderIns, WorldOk, Joined, EvalCond, Ready;
    LoopParts(w, p, fr, mem);
    var b3, b5, b7 := WhileEntry(p.c.cnd, p.ls, p.b), WhileHead(p.c.cnd, p.ls, p.b),
        LoopJoin(p.c.cnd, p.c.body, p.ls, p.b);
    n, fr', mem' := HeaderGoes(w, p.c.cnd, p.ls, p.st, p.b, b3, fr, ks, mem);
    Widens(w, p.ls, p.st, p.b.cfg, b5.cfg, fr', mem');
    if EvalCond(p.c.cnd, p.st).value {
      JoinReady(w, p.c.body, p.ls, p.st, b5, IterationOf(p.b), fr', mem');
    } else {
      Widens(w, p.ls, p.st, p.b.cfg, b7.cfg, fr', mem');
      JoinReady(w, p.c.next, p.ls, p.st, b7, BreakOf(p.b), fr', mem');
    }
  }

  lemma Widens(w: World, ls: Locals, st: SState, g: Cfg, h: Cfg, fr: Frame, mem: Mem)
    requires StateMatch(w.gf.slots, ls, st, g.nextReg, |g.slots|, fr, mem) && g.nextReg <= h.nextReg &&
             |g.slots| <= |h.slots| <= |w.gf.slots|
    ensures StateMatch(w.gf.slots, ls, st, h.nextReg, |h.slots|, fr, mem)
  {
    StateWider(w.gf.slots, ls, st, g.nextReg, h.nextReg, |g.slots|, |h.slots|, fr, fr, mem);
  }

  /** The body has run, and control is at `join`, in the state it left. */
  predicate Left(o: Outcome) { o.Normal? || o.Continued? || o.Broke? }

  /** An iteration that does not return: its end, with the scope of the loop matching again. */
  lemma Iterates(w: World, fuel: nat, p: Point, fr: Frame, ks: Stack, mem: Mem) returns (n: nat, fr': Frame, mem': Mem)
    requires WorldOk(w) && ProgramOk(w.src, w.fns) && AtHeader(w, p, fr, mem) && EvalCond(p.c.cnd, p.st) == Some(true)
    requires Left(Run(w.src, w.k, fuel, p.c.body, p.st))
    ensures var o := Run(w.src, w.k, fuel, p.c.body, p.st);
            Goes(w.fns, n, fr, ks, mem, fr', mem') && fr'.fn == w.k && fr'.pc == 0 &&
            fr'.block == (if o.Broke? then BreakOf(p.b) else ContinueOf(p.b)) &&
            StateMatch(w.gf.slots, p.ls, Leave(p.st, o.vars, o.heap), p.b.cfg.nextReg, |p.b.cfg.slots|, fr', mem')
  {
    hide Simulated, StateMatch, Goes, FrameKept, MemKept, Holds, CloseHolds, Lower, WhileEntry, WhileHead, WhileTest,
         LoopJoin, HeaderIns, WorldOk,
         Joined, JoinsTo, EvalCond, Ready, Run, ProgramOk, AtEnd, Resumes;
    var o, b5 := Run(w.src, w.k, fuel, p.c.body, p.st), WhileHead(p.c.cnd, p.ls, p.b);
    var bEnd := Lower(p.c.body, p.ls, b5);
    LoopParts(w, p, fr, mem);
    var n1, fr1, mem1 := TestLoop(w, p, fr, ks, mem);
    var n2, fr2, mem2 := Sim(w, p.c.body, fuel, p.ls, p.st, b5, fr1, ks, mem1);
    BodyOutcome(w, o, fuel, p.ls, p.st, b5.cfg, bEnd.cfg, fr1, ks, mem1, n2, fr2, mem2);
    LaterResumes(w, p.ls, p.st, p.b.cfg, p.ls, p.st, b5.cfg, o.vars, o.heap, fr, ks, mem, n1, fr1, mem1, n2, fr2, mem2);
    n, fr', mem' := n1 + n2, fr2, mem2;
    if o.Normal? {
      fr' := ReachJoin(w, p.ls, p.st, o.vars, o.heap, p.b.cfg, bEnd, ContinueOf(p.b),
          p.b.cfg, fr, ks, mem, n, fr2, mem2);
      n := n + 1;
    } else {
      ResumesAt(w, p.ls, p.st, o.vars, o.heap, p.b.cfg, fr, ks, mem, n, fr2, mem2);
    }
  }

  lemma ResumesAt(w: World, ls: Locals, st: SState, vars: seq<Cell>, heap: Mem, g: Cfg,
                  fr: Frame, ks: Stack, mem: Mem, n: nat, fr': Frame, mem': Mem)
    requires Resumes(w, ls, st, vars, heap, g, fr, ks, mem, n, fr', mem') && |vars| >= |st.vars|
    ensures Goes(w.fns, n, fr, ks, mem, fr', mem') && fr'.fn == fr.fn
    ensures StateMatch(w.gf.slots, ls, Leave(st, vars, heap), g.nextReg, |g.slots|, fr', mem')
  {
    hide Goes, StateMatch, MemKept;
  }

  lemma WhileGoes(w: World, fuel: nat, p: Point, m: Move, fr: Frame, ks: Stack, mem: Mem)
    returns (n: nat, fr': Frame, mem': Mem)
    requires WorldOk(w) && ProgramOk(w.src, w.fns) && p.c.While? && Reached(w, p, fr, mem)
    requires NextWhile(w.src, w.k, fuel, p.c.cnd, p.c.body, p.c.next, p, m).Some?
    ensures var q := NextWhile(w.src, w.k, fuel, p.c.cnd, p.c.body, p.c.next, p, m).value;
            Goes(w.fns, n, fr, ks, mem, fr', mem') && Reached(w, q, fr', mem')
  {
    hide StateMatch, Goes, FrameKept, MemKept, Holds, CloseHolds, Lower, WhileEntry, WhileHead, WhileTest, LoopJoin,
         HeaderIns, WorldOk,
         Joined, JoinsTo, EvalCond, Ready, Run, ProgramOk, LoopLaidOut;
    var n1, fr1, mem1 := ToHeader(w, p, fr, ks, mem);
    var n2;
    if EvalCond(p.c.cnd, p.st) == Some(false) || m == Into {
      n2, fr', mem' := TestLoop(w, p, fr1, ks, mem1);
    } else {
      n2, fr', mem' := Iterates(w, fuel, p, fr1, ks, mem1);
      var o, b7 := Run(w.src, w.k, fuel, p.c.body, p.st), LoopJoin(p.c.cnd, p.c.body, p.ls, p.b);
      if o.Broke? {
        LoopParts(w, p, fr1, mem1);
        LeavesLoop(w, p, Leave(p.st, o.vars, o.heap), b7, fr', mem');
      }
    }
    GoesTrans(w.fns, n1, n2, ks, fr, mem, fr1, mem1, fr', mem');
    n := n1 + n2;
  }

  lemma LeavesLoop(w: World, p: Point, st: SState, b7: Builder, fr: Frame, mem: Mem)
    requires p.c.While? && StateMatch(w.gf.slots, p.ls, st, p.b.cfg.nextReg, |p.b.cfg.slots|, fr, mem)
    requires Joined(w, p.c.next, p.ls, b7, BreakOf(p.b)) && JoinsTo(w, p.b, b7)
    requires fr.fn == w.k && fr.block == BreakOf(p.b) && fr.pc == 0
    ensures Ready(w, p.c.next, p.ls, st, b7, fr, mem)
  {
    hide StateMatch;
    Widens(w, p.ls, st, p.b.cfg, b7.cfg, fr, mem);
    JoinReady(w, p.c.next, p.ls, st, b7, BreakOf(p.b), fr, mem);
  }

  lemma CallGoes(w: World, fuel: nat, p: Point, m: Move, fr: Frame, ks: Stack, mem: Mem)
    returns (n: nat, fr': Frame, mem': Mem)
    requires WorldOk(w) && ProgramOk(w.src, w.fns) && p.c.Call? && Ready(w, p.c, p.ls, p.st, p.b, fr, mem)
    requires NextCall(w.src, w.k, fuel, p.c.fn, p.c.args, p.c.next, p, m).Some?
    ensures var q := NextCall(w.src, w.k, fuel, p.c.fn, p.c.args, p.c.next, p, m).value;
            Goes(w.fns, n, fr, ks, mem, fr', mem') && Ready(w, q.c, q.ls, q.st, q.b, fr', mem')
  {
    hide Lower, Run, Included, ProgramOk, WorldOk, Ready, FrameKept, EvalArgs, EmittedArgs, LowerCall, CallLocals,
         MemKept, HeapMatch, AtEnd;
    var fn, args, ls, st, b := p.c.fn, p.c.args, p.ls, p.st, p.b;
    var vs, c := EvalArgs(args, st.env).value, EmittedArgs(args, ls.vals, b.cfg.nextReg);
    var n1, fr0 := CallEnters(w, fn, args, p.c.next, ls, st, b, fr, ks, mem);
    StackHeap(w, p.c, ls, st, b, fr, mem);
    var n2;
    n2, mem' := SimFunction(w.src, w.fns, fn.idx, fuel, vs, st.heap, fr.sp, c.next, Push(fr0, ks), mem);
    var o := Run(w.src, fn.idx, fuel, w.src[fn.idx].body, SState(vs, [], st.heap));
    StepsAdd(w.fns, n1, n2, Running(Push(fr, ks), mem));
    CallReturns(w, fn, args, p.c.next, ls, st, b, fr, mem, fr0, o.result, o.heap, mem');
    n, fr' := n1 + n2, WithResult(fr0, c.next, o.result);
  }

  /** Every move of the source is a stretch of the machine's run. */
  lemma MoveGoes(w: World, fuel: nat, p: Point, m: Move, fr: Frame, ks: Stack, mem: Mem)
    returns (n: nat, fr': Frame, mem': Mem)
    requires WorldOk(w) && ProgramOk(w.src, w.fns) && Reached(w, p, fr, mem) && Next(w.src, w.k, fuel, p, m).Some?
    ensures Goes(w.fns, n, fr, ks, mem, fr', mem') && Reached(w, Next(w.src, w.k, fuel, p, m).value, fr', mem')
  {
    hide WorldOk, ProgramOk, Ready, Goes, NextWhile, Do, LoopLaidOut, StateMatch, Run, EvalArgs, EvalTest, Lower;
    match p.c
    case Act(a, next) => n, fr', mem' := ActGoes(w, a, next, p.ls, p.st, p.b, fr, ks, mem);
    case Call(_, _, _) => n, fr', mem' := CallGoes(w, fuel, p, m, fr, ks, mem);
    case If(_, _, _, _) => n, fr', mem' := IfGoes(w, fuel, p, m, fr, ks, mem);
    case IfThen(_, _, _) => n, fr', mem' := IfThenGoes(w, fuel, p, m, fr, ks, mem);
    case While(_, _, _) => n, fr', mem' := WhileGoes(w, fuel, p, m, fr, ks, mem);
  }

  lemma {:induction false} FollowGoes(w: World, fuel: nat, p: Point, moves: seq<Move>, fr: Frame, ks: Stack, mem: Mem)
    returns (n: nat, fr': Frame, mem': Mem)
    requires WorldOk(w) && ProgramOk(w.src, w.fns) && Reached(w, p, fr, mem) && Follow(w.src, w.k, fuel, p, moves).Some?
    ensures Goes(w.fns, n, fr, ks, mem, fr', mem') && Reached(w, Follow(w.src, w.k, fuel, p, moves).value, fr', mem')
    decreases |moves|
  {
    hide WorldOk, ProgramOk, Reached, Goes, Next;
    if moves == [] {
      n, fr', mem' := 0, fr, mem;
      NoSteps(w, fr, ks, mem);
    } else {
      var q := Next(w.src, w.k, fuel, p, moves[0]).value;
      var n1, fr1, mem1 := MoveGoes(w, fuel, p, moves[0], fr, ks, mem);
      var n2;
      n2, fr', mem' := FollowGoes(w, fuel, q, moves[1..], fr1, ks, mem1);
      GoesTrans(w.fns, n1, n2, ks, fr, mem, fr1, mem1, fr', mem');
      n := n1 + n2;
    }
  }

  lemma NoSteps(w: World, fr: Frame, ks: Stack, mem: Mem)
    ensures Goes(w.fns, 0, fr, ks, mem, fr, mem)
  {}

  // ----- leaves stay in scope, and keep their values -----

  lemma NextExtends(src: seq<FnDef>, k: nat, fuel: nat, p: Point, m: Move)
    requires Next(src, k, fuel, p, m).Some?
    ensures p.st.env <= Next(src, k, fuel, p, m).value.st.env
  {
    hide Run, Lower, EvalArgs, EvalTest, EvalCond, LowerAction, LowerCall;
    match p.c
    case Act(a, _) => ActionScope(a, p.ls, p.st, p.b);
    case _ =>
  }

  lemma {:induction false} FollowExtends(src: seq<FnDef>, k: nat, fuel: nat, p: Point, moves: seq<Move>)
    requires Follow(src, k, fuel, p, moves).Some?
    ensures p.st.env <= Follow(src, k, fuel, p, moves).value.st.env
    decreases |moves|
  {
    hide Next;
    if moves != [] {
      NextExtends(src, k, fuel, p, moves[0]);
      FollowExtends(src, k, fuel, Next(src, k, fuel, p, moves[0]).value, moves[1..]);
    }
  }

  /** With the leaves still in their registers, a tree's code computes the value the tree had at first,
      and computes it again each time it is emitted. */
  lemma OldValue(e: Expr, env: Env, env': Env, vals: seq<Value>, n: nat, r: nat, slots: Regs, k: Core)
    requires Eval(e, env).Some? && env <= env' && ValsMatch(vals, env', k.regs, n) && n <= r
    ensures Computes(Emitted(e, vals, r), r, slots, k, PatOf(TypeOf(e), Eval(e, env).value))
    ensures var k1 := After(Emitted(e, vals, r).ops, slots, k); k1.mem == k.mem && ValsMatch(vals, env', k1.regs, n)
  {
    EvalExtends(e, env, env');
    ValsKept(vals, env', k.regs, k.regs, n, r);
    EmittedComputes(e, vals, env', r, slots, k);
    ValsKept(vals, env', k.regs, After(Emitted(e, vals, r).ops, slots, k).regs, n, n);
  }

  /** Wherever the run has got to, by any moves through arms, iterations and calls, code emitted there for
      a tree over leaves read at p, with any fresh registers, computes what the tree was worth at p;
      and once it has run, it can be run again. */
  lemma LazyAnywhere(w: World, fuel: nat, p: Point, moves: seq<Move>, e: Expr, r: nat, fr: Frame, ks: Stack, mem: Mem)
    returns (n: nat, fr': Frame, mem': Mem)
    requires WorldOk(w) && ProgramOk(w.src, w.fns) && Reached(w, p, fr, mem) && Eval(e, p.st.env).Some?
    requires Follow(w.src, w.k, fuel, p, moves).Some? && r >= Follow(w.src, w.k, fuel, p, moves).value.b.cfg.nextReg
    ensures var q := Follow(w.src, w.k, fuel, p, moves).value;
            var code, k := Emitted(e, q.ls.vals, r), Core(fr'.regs, mem');
            Goes(w.fns, n, fr, ks, mem, fr', mem') && Reached(w, q, fr', mem') &&
            Computes(code, r, fr'.slots, k, PatOf(TypeOf(e), Eval(e, p.st.env).value)) &&
            ValsMatch(q.ls.vals, q.st.env, After(code.ops, fr'.slots, k).regs, q.b.cfg.nextReg)
  {
    hide WorldOk, ProgramOk, Reached, Goes, Follow, Computes, Emitted, After, Eval;
    var q := Follow(w.src, w.k, fuel, p, moves).value;
    n, fr', mem' := FollowGoes(w, fuel, p, moves, fr, ks, mem);
    FollowExtends(w.src, w.k, fuel, p, moves);
    ReachedMatch(w, q, fr', mem');
    MatchVals(w, q.ls, q.st, q.b, fr', mem');
    OldValue(e, p.st.env, q.st.env, q.ls.vals, q.b.cfg.nextReg, r, fr'.slots, Core(fr'.regs, mem'));
  }

  /** The same at the end of a lambda, in whose scope e's leaves were read or to which they were passed on. */
  lemma LazyAtEnd(w: World, fuel: nat, c: Code, e: Expr, env: Env, ls: Locals, st: SState, b: Builder, fr: Frame,
      ks: Stack, mem: Mem)
    returns (n: nat, fr': Frame, mem': Mem)
    requires WorldOk(w) && ProgramOk(w.src, w.fns) && Ready(w, c, ls, st, b, fr, mem)
    requires Eval(e, env).Some? && env <= st.env && Run(w.src, w.k, fuel, c, st).Normal?
    ensures var r := Lower(c, ls, b).cfg.nextReg;
            Goes(w.fns, n, fr, ks, mem, fr', mem') && AtEnd(w, fr', Lower(c, ls, b).cfg) &&
            Computes(Emitted(e, ls.vals, r), r, fr'.slots, Core(fr'.regs, mem'), PatOf(TypeOf(e), Eval(e, env).value))
  {
    hide WorldOk, ProgramOk, Simulated, Goes, AtEnd, Computes, Emitted, Eval, Run, Lower, MemKept, FrameKept, Included,
         LoopOk;
    var o := Run(w.src, w.k, fuel, c, st);
    n, fr', mem' := Sim(w, c, fuel, ls, st, b, fr, ks, mem);
    BodyOutcome(w, o, fuel, ls, st, b.cfg, Lower(c, ls, b).cfg, fr, ks, mem, n, fr', mem');
    LowerGrows(c, ls, b);
    OldValue(e, env, st.env, ls.vals, b.cfg.nextReg, Lower(c, ls, b).cfg.nextReg, fr'.slots, Core(fr'.regs, mem'));
  }
}
