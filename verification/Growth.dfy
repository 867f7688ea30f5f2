/** Lowering only ever appends: what a phase of the builder leaves alone, and the exact shape
    of what it adds to the function under construction. */
module Growth {
  import opened Types
  import opened Source
  import opened Ir
  import opened Text
  import opened Lowering
  import opened Shapes

  lemma GrowsTrans(f: Cfg, g: Cfg, h: Cfg)
    requires Sane(f) && Grows(f, g) && Grows(g, h)
    ensures Grows(f, h)
  {
    forall l | l in f.code
      ensures l in h.code && (if l == f.cur then f.code[l] <= h.code[l] else h.code[l] == f.code[l])
    {
      assert l.id < f.nextLabel;
      assert l in g.code;
    }
  }

  lemma ExtendsGrows(g: Cfg, h: Cfg, ins: seq<Ins>)
    requires Sane(g) && Extends(g, h, ins) && g.nextReg <= h.nextReg && g.slots <= h.slots
    ensures Sane(h) && Grows(g, h)
  {}

  lemma {:induction false} EmittedNext(e: Expr, vals: seq<Value>, r: nat)
    ensures Emitted(e, vals, r).next >= r
    decreases e
  {
    match e
    case Val(_, _) =>
    case Lit(_, _) =>
    case Arith(_, l, rh) => EmittedNext(l, vals, r); EmittedNext(rh, vals, Emitted(l, vals, r).next);
    case Rel(_, l, rh) => EmittedNext(l, vals, r); EmittedNext(rh, vals, Emitted(l, vals, r).next);
    case PtrArith(_, l, rh) =>
      EmittedNext(rh, vals, r);
      EmittedNext(l, vals, Widen(TypeOf(rh), Emitted(rh, vals, r)).next);
    case Cast(_, e1) => EmittedNext(e1, vals, r);
    case BitCast(_, e1) => EmittedNext(e1, vals, r);
  }

  lemma {:induction false} EmittedArgsNext(args: seq<Expr>, vals: seq<Value>, r: nat)
    ensures EmittedArgs(args, vals, r).next >= r
    decreases |args|
  {
    if args != [] {
      EmittedNext(args[0], vals, r);
      EmittedArgsNext(args[1..], vals, Emitted(args[0], vals, r).next);
    }
  }

  lemma ReadCodeNext(rd: Read, ls: Locals, r: nat)
    ensures ReadCode(rd, ls, r).next >= r
  {
    match rd
    case RGet(_) =>
    case RLoad(p) => EmittedNext(p, ls.vals, r);
  }

  lemma ActionCodeNext(a: Action, ls: Locals, r: nat)
    ensures ActionCode(a, ls, r).next >= r
  {
    match a
    case ReadValue(rd) => ReadCodeNext(rd, ls, r);
    case Declare(_, _) =>
    case Set(_, e) => EmittedNext(e, ls.vals, r);
    case Store(e, p) =>
      EmittedNext(e, ls.vals, r);
      EmittedNext(p, ls.vals, Emitted(e, ls.vals, r).next);
    case MemCmp(p, q, n) => EmittedArgsNext([p, q, n], ls.vals, r);
  }

  // ----- straight-line statements -----

  lemma LowerReadShape(rd: Read, ls: Locals, b: Builder)
    requires Sane(b.cfg)
    ensures var g, h := b.cfg, LowerRead(rd, ls, b).cfg;
            var c := ReadCode(rd, ls, g.nextReg);
            Extends(g, h, WithLoc(c.ops, ReadLoc(rd, b))) && h.nextReg == c.next && h.slots == g.slots &&
            Sane(h) && Grows(g, h)
  {
    ReadCodeNext(rd, ls, b.cfg.nextReg);
    var c := ReadCode(rd, ls, b.cfg.nextReg);
    ExtendsGrows(b.cfg, LowerRead(rd, ls, b).cfg, WithLoc(c.ops, ReadLoc(rd, b)));
  }

  lemma LowerActionShape(a: Action, ls: Locals, b: Builder)
    requires Sane(b.cfg)
    ensures var g, h := b.cfg, LowerAction(a, ls, b).cfg;
            var c := ActionCode(a, ls, g.nextReg);
            Extends(g, h, WithLoc(c.ops, ActionLoc(a, b))) && h.nextReg == c.next &&
            h.slots == (if a.Declare? then g.slots + [a.ty] else g.slots) &&
            Sane(h) && Grows(g, h)
  {
    ActionCodeNext(a, ls, b.cfg.nextReg);
    var c := ActionCode(a, ls, b.cfg.nextReg);
    if a.Declare? {
      assert WithLoc(c.ops, ActionLoc(a, b)) == [];
      assert b.cfg.code[b.cfg.cur := b.cfg.code[b.cfg.cur] + []] == b.cfg.code by {
        assert b.cfg.code[b.cfg.cur] + [] == b.cfg.code[b.cfg.cur];
      }
    }
    ExtendsGrows(b.cfg, LowerAction(a, ls, b).cfg, WithLoc(c.ops, ActionLoc(a, b)));
  }

  lemma LowerCallShape(fn: FnRef, args: seq<Expr>, ls: Locals, b: Builder)
    requires Sane(b.cfg)
    ensures var g, h := b.cfg, LowerCall(fn, args, ls, b).cfg;
            var c := EmittedArgs(args, ls.vals, g.nextReg);
            Extends(g, h, WithLoc(c.ops + [ICall(c.next, fn.idx, c.res)], Loc(CurrentLine(b), b.scope))) &&
            h.nextReg == c.next + 1 && h.slots == g.slots && c.next >= g.nextReg &&
            Sane(h) && Grows(g, h)
  {
    EmittedArgsNext(args, ls.vals, b.cfg.nextReg);
    var c := EmittedArgs(args, ls.vals, b.cfg.nextReg);
    ExtendsGrows(b.cfg, LowerCall(fn, args, ls, b).cfg,
                 WithLoc(c.ops + [ICall(c.next, fn.idx, c.res)], Loc(CurrentLine(b), b.scope)));
  }

  lemma {:induction false} LowerReadsShape(rds: seq<Read>, ls: Locals, b: Builder)
    requires Sane(b.cfg)
    ensures var g, h := b.cfg, LowerReads(rds, ls, b).0.cfg;
            Extends(g, h, ReadsCode(rds, ls, b)) && h.nextReg >= g.nextReg && h.slots == g.slots &&
            Sane(h) && Grows(g, h)
    ensures LowerReads(rds, ls, b).0.scope == b.scope && LowerReads(rds, ls, b).0.src.indent == b.src.indent
    decreases |rds|
  {
    hide ReadLocals, ReadCode, ReadLoc;
    if rds == [] {
      assert b.cfg.code[b.cfg.cur] + [] == b.cfg.code[b.cfg.cur];
    } else {
      var b1, ls1 := LowerRead(rds[0], ls, b), ReadLocals(rds[0], ls, b);
      LowerReadShape(rds[0], ls, b);
      LowerReadsShape(rds[1..], ls1, b1);
      var h := LowerReads(rds, ls, b).0.cfg;
      var first := WithLoc(ReadCode(rds[0], ls, b.cfg.nextReg).ops, ReadLoc(rds[0], b));
      assert (b.cfg.code[b.cfg.cur] + first) + ReadsCode(rds[1..], ls1, b1) ==
             b.cfg.code[b.cfg.cur] + ReadsCode(rds, ls, b);
      GrowsTrans(b.cfg, b1.cfg, h);
    }
  }

  // ----- operations without their debug locations -----

  lemma ReadsCons(rds: seq<Read>, ls: Locals, b: Builder)
    requires rds != []
    ensures var c := ReadCode(rds[0], ls, b.cfg.nextReg);
            var b1, ls1 := LowerRead(rds[0], ls, b), ReadLocals(rds[0], ls, b);
            b1.cfg.nextReg == c.next && LowerReads(rds, ls, b) == LowerReads(rds[1..], ls1, b1) &&
            OpsOf(ReadsCode(rds, ls, b)) == c.ops + OpsOf(ReadsCode(rds[1..], ls1, b1)) &&
            ls1 == PushValue(ls, Value(c.res, ReadName(rds[0], ls, b)))
  {
    var c := ReadCode(rds[0], ls, b.cfg.nextReg);
    OpsOfWithLoc(c.ops, ReadLoc(rds[0], b));
    OpsOfAppend(WithLoc(c.ops, ReadLoc(rds[0], b)),
        ReadsCode(rds[1..], ReadLocals(rds[0], ls, b), LowerRead(rds[0], ls, b)));
    LowerReadNext(rds[0], ls, b);
  }

  lemma LowerReadNext(rd: Read, ls: Locals, b: Builder)
    ensures LowerRead(rd, ls, b).cfg.nextReg == ReadCode(rd, ls, b.cfg.nextReg).next
  {}

  lemma OpsOfAppend(xs: seq<Ins>, ys: seq<Ins>)
    ensures OpsOf(xs + ys) == OpsOf(xs) + OpsOf(ys)
  {}

  lemma OpsOfWithLoc(ops: seq<Op>, loc: DebugLoc)
    ensures OpsOf(WithLoc(ops, loc)) == ops
  {}

  lemma TestOps(e: Expr, ls: Locals, b: Builder, yes: Label, no: Label)
    ensures var c := Emitted(e, ls.vals, b.cfg.nextReg);
            OpsOf(TestIns(e, ls, b, yes, no)) == c.ops + [ICondBr(c.res, yes, no)]
  {}

  lemma {:induction false} ReadsNext(rds: seq<Read>, ls: Locals, b: Builder)
    ensures LowerReads(rds, ls, b).0.cfg.nextReg >= b.cfg.nextReg
    decreases |rds|
  {
    if rds != [] {
      ReadCodeNext(rds[0], ls, b.cfg.nextReg);
      ReadsNext(rds[1..], ReadLocals(rds[0], ls, b), LowerRead(rds[0], ls, b));
    }
  }

  // ----- exits -----

  lemma ExitShape(b: Builder, text: string, ops: seq<Op>, next: nat)
    requires Sane(b.cfg) && next >= b.cfg.nextReg
    ensures var g, h := b.cfg, Exit(b, text, ops, next).cfg;
            h.cur == g.cur && h.code == g.code[g.cur := g.code[g.cur] + WithLoc(ops, Loc(CurrentLine(b), b.scope))] &&
            h.exited && h.slots == g.slots && Sane(h) && Grows(g, h)
  {}

  // ----- if_ and while_ -----

  lemma IfHeadShape(e: Expr, ls: Locals, b: Builder)
    requires Sane(b.cfg)
    ensures var g, h := b.cfg, IfHead(e, ls, b).cfg;
            Branches(g, h, TestIns(e, ls, b, TrueOf(b), FalseOf(b)), {TrueOf(b), FalseOf(b), MergeOf(b)}) &&
            h.cur == TrueOf(b) && h.order == g.order + [TrueOf(b)] && h.nextLabel == g.nextLabel + 3 && h.loop == g.loop
  {
    hide Emitted, Show, WithLoc;
    EmittedNext(e, ls.vals, b.cfg.nextReg);
  }

  lemma IfThenHeadShape(e: Expr, ls: Locals, b: Builder)
    requires Sane(b.cfg)
    ensures var g, h := b.cfg, IfThenHead(e, ls, b).cfg;
            Branches(g, h, TestIns(e, ls, b, TrueOf(b), MergeOnlyOf(b)), {TrueOf(b), MergeOnlyOf(b)}) &&
            h.cur == TrueOf(b) && h.order == g.order + [TrueOf(b)] && h.nextLabel == g.nextLabel + 2 && h.loop == g.loop
  {
    EmittedNext(e, ls.vals, b.cfg.nextReg);
  }

  lemma CloseShape(b: Builder, text: string, target: Label, parent: Scope)
    requires b.cfg.cur in b.cfg.code
    ensures var g, h := b.cfg, CloseBlock(b, text, target, parent).cfg;
            h.code == g.code[g.cur := g.code[g.cur] + CloseIns(b, target, parent)] && h.cur == g.cur &&
            h.order == g.order && !h.exited && h.nextLabel == g.nextLabel && h.nextReg == g.nextReg &&
            h.slots == g.slots && h.loop == g.loop
  {
    if b.cfg.exited {
      assert b.cfg.code[b.cfg.cur] + [] == b.cfg.code[b.cfg.cur];
    } else {
      assert WithLoc([IBr(target)], Loc(CurrentLine(b), parent)) == CloseIns(b, target, parent);
    }
  }

  lemma IfElseShape(b: Builder, b2: Builder)
    requires b2.cfg.cur in b2.cfg.code && FalseOf(b) in b2.cfg.code && FalseOf(b) != b2.cfg.cur
    ensures Moves(b2.cfg, IfElse(b, b2).cfg, CloseIns(b2, MergeOf(b), b.scope), FalseOf(b))
    ensures IfElse(b, b2).cfg.loop == b2.cfg.loop
  {
    CloseShape(b2, "} else {", MergeOf(b), b.scope);
  }

  lemma IfEndShape(b: Builder, b4: Builder)
    requires b4.cfg.cur in b4.cfg.code && MergeOf(b) in b4.cfg.code && MergeOf(b) != b4.cfg.cur
    ensures Moves(b4.cfg, IfEnd(b, b4).cfg, CloseIns(b4, MergeOf(b), b.scope), MergeOf(b))
    ensures IfEnd(b, b4).cfg.loop == b4.cfg.loop
  {
    CloseShape(b4, "}", MergeOf(b), b.scope);
  }

  lemma IfThenEndShape(b: Builder, b2: Builder)
    requires b2.cfg.cur in b2.cfg.code && MergeOnlyOf(b) in b2.cfg.code && MergeOnlyOf(b) != b2.cfg.cur
    ensures Moves(b2.cfg, IfThenEnd(b, b2).cfg, CloseIns(b2, MergeOnlyOf(b), b.scope), MergeOnlyOf(b))
    ensures IfThenEnd(b, b2).cfg.loop == b2.cfg.loop
  {
    CloseShape(b2, "}", MergeOnlyOf(b), b.scope);
  }

  lemma WhileEndShape(b: Builder, b6: Builder)
    requires b6.cfg.cur in b6.cfg.code && BreakOf(b) in b6.cfg.code && BreakOf(b) != b6.cfg.cur
    ensures Moves(b6.cfg, WhileEnd(b, b6).cfg, CloseIns(b6, ContinueOf(b), b.scope), BreakOf(b))
    ensures WhileEnd(b, b6).cfg.loop == b.cfg.loop
  {
    CloseShape(b6, "}", ContinueOf(b), b.scope);
  }

  lemma WhileEntryShape(cnd: Cond, ls: Locals, b: Builder)
    requires Sane(b.cfg)
    ensures var g, h := b.cfg, WhileEntry(cnd, ls, b).cfg;
            Branches(g, h, EntryIns(cnd, ls, b), {ContinueOf(b), IterationOf(b), BreakOf(b)}) &&
            h.cur == ContinueOf(b) && h.order == g.order + [ContinueOf(b)] && h.nextLabel == g.nextLabel + 3 &&
            h.loop == InLoop(ContinueOf(b), BreakOf(b)) && Sane(h)
    ensures WhileEntry(cnd, ls, b).scope == b.scope
  {
    var b0 := SetLoc(b, CurrentLine(b) + 1, b.scope);
    LowerReadsShape(cnd.first, ls, b0);
    EntryShape(b, LowerReads(cnd.first, ls, b0).0, ReadsCode(cnd.first, ls, b0),
               "while (" + Show(cnd.test, LowerReads(cnd.first, ls, b0).1.vals) + ") {");
  }

  lemma EntryShape(b: Builder, b1: Builder, first: seq<Ins>, text: string)
    requires Sane(b.cfg) && Sane(b1.cfg) && b1.cfg.nextReg >= b.cfg.nextReg && b1.cfg.slots == b.cfg.slots
    requires Extends(b.cfg, b1.cfg, first)
    ensures var g, h := b.cfg, EnterLoop(b, AddLine(b1, text)).cfg;
            Branches(g, h, first + [Ins(IBr(ContinueOf(b)), b1.cfg.loc)],
              {ContinueOf(b), IterationOf(b), BreakOf(b)}) &&
            h.cur == ContinueOf(b) && h.order == g.order + [ContinueOf(b)] && h.nextLabel == g.nextLabel + 3 &&
            h.loop == InLoop(ContinueOf(b), BreakOf(b)) && Sane(h)
  {
    assert WithLoc([IBr(ContinueOf(b))], b1.cfg.loc) == [Ins(IBr(ContinueOf(b)), b1.cfg.loc)];
    assert b.cfg.code[b.cfg.cur] + first + [Ins(IBr(ContinueOf(b)), b1.cfg.loc)] ==
           b.cfg.code[b.cfg.cur] + (first + [Ins(IBr(ContinueOf(b)), b1.cfg.loc)]);
  }

  lemma WhileTestShape(cnd: Cond, ls: Locals, b: Builder, b3: Builder)
    requires Sane(b3.cfg) && IterationOf(b) in b3.cfg.code && IterationOf(b) != b3.cfg.cur
    ensures var g, h := b3.cfg, WhileTest(cnd, ls, b, b3).cfg;
            h.code == g.code[g.cur := g.code[g.cur] + HeaderIns(cnd, ls, b, b3)] &&
            h.cur == IterationOf(b) && h.order == g.order + [IterationOf(b)] && h.nextLabel == g.nextLabel &&
            h.nextReg >= g.nextReg && h.slots == g.slots && h.loop == g.loop && h.exited == g.exited
  {
    LowerReadsShape(cnd.first, ls, b3);
    var (b4, ls4) := LowerReads(cnd.first, ls, b3);
    var c := Emitted(cnd.test, ls4.vals, b4.cfg.nextReg);
    EmittedNext(cnd.test, ls4.vals, b4.cfg.nextReg);
    assert b3.cfg.code[b3.cfg.cur] + ReadsCode(cnd.first, ls, b3) +
           WithLoc(c.ops + [ICondBr(c.res, IterationOf(b), BreakOf(b))], b4.cfg.loc) ==
           b3.cfg.code[b3.cfg.cur] + HeaderIns(cnd, ls, b, b3);
  }

  // ----- phases composed -----

  /** A body in the first block of a branching statement, then the move to another of its blocks. */
  lemma BranchMoves(g: Cfg, g1: Cfg, g2: Cfg, g3: Cfg, ins: seq<Ins>, made: set<Label>, ins': seq<Ins>, l: Label)
    requires Sane(g) && Branches(g, g1, ins, made) && Sane(g2) && Grows(g1, g2)
    requires Moves(g2, g3, ins', l) && l in made && l != g1.cur && g3.loop == g.loop
    ensures Sane(g3) && Grows(g, g3) && g3.code[l] == []
    ensures forall m :: m in made && m != g1.cur ==> m in g3.code && g3.code[m] == []
  {}

  /** Two bodies in turn, as in a two-armed if_. */
  lemma TwoBodies(g: Cfg, g1: Cfg, g2: Cfg, g3: Cfg, g4: Cfg, g5: Cfg,
                  ins: seq<Ins>, made: set<Label>, ins2: seq<Ins>, l: Label, ins4: seq<Ins>, m: Label)
    requires Sane(g) && Branches(g, g1, ins, made) && Sane(g2) && Grows(g1, g2)
    requires Moves(g2, g3, ins2, l) && l in made && l != g1.cur && g3.loop == g.loop
    requires Sane(g4) && Grows(g3, g4)
    requires Moves(g4, g5, ins4, m) && m in made && m != g1.cur && m != l && g5.loop == g.loop
    ensures Sane(g3) && Sane(g5) && Grows(g, g3) && Grows(g, g5) && g3.code[l] == [] && g5.code[m] == []
  {
    BranchMoves(g, g1, g2, g3, ins, made, ins2, l);
    GrowsTrans(g, g3, g4);
  }

  lemma WhileMoves(g: Cfg, g5: Cfg, g6: Cfg, g7: Cfg, ins: seq<Ins>, l: Label)
    requires Sane(g) && Sane(g5) && g.nextLabel <= g5.nextLabel && g.nextReg <= g5.nextReg && g.slots == g5.slots
    requires forall m :: m in g.code ==>
               m in g5.code && (if m == g.cur then g.code[m] <= g5.code[m] else g5.code[m] == g.code[m])
    requires g5.cur.id >= g.nextLabel && l.id >= g.nextLabel && l in g5.code && g5.code[l] == [] && l != g5.cur
    requires Sane(g6) && Grows(g5, g6) && Moves(g6, g7, ins, l) && g7.loop == g.loop
    ensures Sane(g7) && Grows(g, g7) && g7.code[l] == []
  {
    forall m | m in g.code
      ensures m in g7.code && (if m == g.cur then g.code[m] <= g7.code[m] else g7.code[m] == g.code[m])
    {
      assert m.id < g.nextLabel;
      assert m in g5.code && m != g5.cur;
      assert m in g6.code && g6.code[m] == g5.code[m];
      assert m != g6.cur;
    }
  }

  /** The blocks of the statement at b keep clear of the insertion block of g2. */
  lemma StillEmpty(g1: Cfg, g2: Cfg, l: Label)
    requires Sane(g1) && Grows(g1, g2) && l in g1.code && l != g1.cur && g1.code[l] == []
    ensures l in g2.code && l != g2.cur && g2.code[l] == []
  {}

  /** Lowering a whole lambda. */
  lemma {:induction false} LowerGrows(c: Code, ls: Locals, b: Builder)
    requires Sane(b.cfg)
    ensures Sane(Lower(c, ls, b).cfg) && Grows(b.cfg, Lower(c, ls, b).cfg)
    decreases c, 2
  {
    match c
    case Done =>
    case Break => if b.cfg.loop.InLoop? { ExitShape(b, "break;", [IBr(b.cfg.loop.breakBlock)], b.cfg.nextReg); }
    case Continue => if b.cfg.loop.InLoop? { ExitShape(b, "continue;", [IBr(b.cfg.loop.continueBlock)], b.cfg.nextReg);
        }
    case Return(e) =>
      var ec := Emitted(e, ls.vals, b.cfg.nextReg);
      EmittedNext(e, ls.vals, b.cfg.nextReg);
      ExitShape(b, "return " + Show(e, ls.vals) + ";", ec.ops + [IRet(Some(ec.res))], ec.next);
    case ReturnVoid => ExitShape(b, "return;", [IRet(None)], b.cfg.nextReg);
    case Act(a, next) =>
      LowerActionShape(a, ls, b);
      LowerGrows(next, ActionLocals(a, ls, b), LowerAction(a, ls, b));
      GrowsTrans(b.cfg, LowerAction(a, ls, b).cfg, LowerAct(a, next, ls, b).cfg);
    case Call(fn, args, next) =>
      LowerCallShape(fn, args, ls, b);
      LowerGrows(next, CallLocals(fn, args, ls, b), LowerCall(fn, args, ls, b));
      GrowsTrans(b.cfg, LowerCall(fn, args, ls, b).cfg, LowerCallThen(fn, args, next, ls, b).cfg);
    case If(e, t, f, next) => IfGrows(e, t, f, next, ls, b);
    case IfThen(e, t, next) => IfThenGrows(e, t, next, ls, b);
    case While(cnd, body, next) => WhileGrows(cnd, body, next, ls, b);
  }

  lemma FirstArmShape(e: Expr, ls: Locals, b: Builder, b2: Builder)
    requires Sane(b.cfg) && Sane(b2.cfg) && Grows(IfHead(e, ls, b).cfg, b2.cfg)
    ensures FirstArm(b, IfHead(e, ls, b), b2, IfElse(b, b2), TestIns(e, ls, b, TrueOf(b), FalseOf(b)))
  {
    IfHeadShape(e, ls, b);
    StillEmpty(IfHead(e, ls, b).cfg, b2.cfg, FalseOf(b));
    IfElseShape(b, b2);
  }

  lemma SecondArmStart(b: Builder, b1: Builder, b2: Builder, b3: Builder, ins: seq<Ins>)
    requires Sane(b.cfg) && FirstArm(b, b1, b2, b3, ins)
    ensures Sane(b3.cfg) && Grows(b.cfg, b3.cfg) && b3.cfg.code[FalseOf(b)] == []
    ensures MergeOf(b) in b3.cfg.code && b3.cfg.code[MergeOf(b)] == []
  {
    BranchMoves(b.cfg, b1.cfg, b2.cfg, b3.cfg, ins, {TrueOf(b), FalseOf(b), MergeOf(b)},
                CloseIns(b2, MergeOf(b), b.scope), FalseOf(b));
  }

  lemma SecondArmShape(b: Builder, b1: Builder, b2: Builder, b3: Builder, ins: seq<Ins>, b4: Builder)
    requires Sane(b.cfg) && FirstArm(b, b1, b2, b3, ins) && Sane(b4.cfg) && Grows(b3.cfg, b4.cfg)
    ensures SecondArm(b, b3, b4, IfEnd(b, b4))
  {
    SecondArmStart(b, b1, b2, b3, ins);
    StillEmpty(b3.cfg, b4.cfg, MergeOf(b));
    IfEndShape(b, b4);
    TwoBodies(b.cfg, b1.cfg, b2.cfg, b3.cfg, b4.cfg, IfEnd(b, b4).cfg, ins, {TrueOf(b), FalseOf(b), MergeOf(b)},
              CloseIns(b2, MergeOf(b), b.scope), FalseOf(b), CloseIns(b4, MergeOf(b), b.scope), MergeOf(b));
  }

  lemma {:induction false} IfGrows(e: Expr, t: Code, f: Code, next: Code, ls: Locals, b: Builder)
    requires Sane(b.cfg)
    ensures Sane(LowerIf(e, t, f, next, ls, b).cfg) && Grows(b.cfg, LowerIf(e, t, f, next, ls, b).cfg)
    decreases If(e, t, f, next), 1
  {
    hide Sane, Grows, IfHead, IfElse, IfEnd, FirstArm;
    var b1 := IfHead(e, ls, b);
    IfHeadSane(e, ls, b);
    LowerGrows(t, ls, b1);
    var b2 := Lower(t, ls, b1);
    FirstArmShape(e, ls, b, b2);
    IfGrowsRest(If(e, t, f, next), b, b1, b2, IfElse(b, b2), TestIns(e, ls, b, TrueOf(b), FalseOf(b)), f, next, ls);
  }

  lemma IfHeadSane(e: Expr, ls: Locals, b: Builder)
    requires Sane(b.cfg)
    ensures Sane(IfHead(e, ls, b).cfg)
  {
    IfHeadShape(e, ls, b);
  }

  lemma {:induction false} IfGrowsRest(
      whole: Code, b: Builder, b1: Builder, b2: Builder, b3: Builder, ins: seq<Ins>, f: Code, next: Code, ls: Locals)
    requires Sane(b.cfg) && FirstArm(b, b1, b2, b3, ins)
    ensures var b' := Lower(next, ls, IfEnd(b, Lower(f, ls, b3)));
            Sane(b'.cfg) && Grows(b.cfg, b'.cfg)
    requires f < whole && next < whole
    decreases whole, 0
  {
    SecondArmStart(b, b1, b2, b3, ins);
    LowerGrows(f, ls, b3);
    var b4 := Lower(f, ls, b3);
    SecondArmShape(b, b1, b2, b3, ins, b4);
    var b5 := IfEnd(b, b4);
    LowerGrows(next, ls, b5);
    GrowsTrans(b.cfg, b5.cfg, Lower(next, ls, b5).cfg);
  }

  lemma IfThenHeadSane(e: Expr, ls: Locals, b: Builder)
    requires Sane(b.cfg)
    ensures Sane(IfThenHead(e, ls, b).cfg)
  {
    IfThenHeadShape(e, ls, b);
  }

  lemma {:induction false} IfThenGrows(e: Expr, t: Code, next: Code, ls: Locals, b: Builder)
    requires Sane(b.cfg)
    ensures Sane(LowerIfThen(e, t, next, ls, b).cfg) && Grows(b.cfg, LowerIfThen(e, t, next, ls, b).cfg)
    decreases IfThen(e, t, next), 1
  {
    hide Sane, Grows, Lower, IfThenHead, IfThenEnd, Moves, TestIns, CloseIns;
    var b1 := IfThenHead(e, ls, b);
    IfThenHeadShape(e, ls, b);
    IfThenHeadSane(e, ls, b);
    LowerGrows(t, ls, b1);
    var b2 := Lower(t, ls, b1);
    StillEmpty(b1.cfg, b2.cfg, MergeOnlyOf(b));
    IfThenEndShape(b, b2);
    var b3 := IfThenEnd(b, b2);
    BranchMoves(b.cfg, b1.cfg, b2.cfg, b3.cfg, TestIns(e, ls, b, TrueOf(b), MergeOnlyOf(b)),
                {TrueOf(b), MergeOnlyOf(b)}, CloseIns(b2, MergeOnlyOf(b), b.scope), MergeOnlyOf(b));
    LowerGrows(next, ls, b3);
    GrowsTrans(b.cfg, b3.cfg, Lower(next, ls, b3).cfg);
  }

  lemma {:induction false} WhileGrows(cnd: Cond, body: Code, next: Code, ls: Locals, b: Builder)
    requires Sane(b.cfg)
    ensures Sane(LowerWhile(cnd, body, next, ls, b).cfg) && Grows(b.cfg, LowerWhile(cnd, body, next, ls, b).cfg)
    decreases While(cnd, body, next), 1
  {
    hide Sane, Grows, WhileEnd, WhileHead, LoopOpened, Moves;
    var b5 := WhileHeadGrows(cnd, ls, b);
    LowerGrows(body, ls, b5);
    WhileGrowsRest(b, b5, Lower(body, ls, b5));
    var b7 := WhileEnd(b, Lower(body, ls, b5));
    LowerGrows(next, ls, b7);
    GrowsTrans(b.cfg, b7.cfg, Lower(next, ls, b7).cfg);
  }

  lemma WhileGrowsRest(b: Builder, b5: Builder, b6: Builder)
    requires Sane(b.cfg) && LoopOpened(b, b5) && Sane(b6.cfg) && Grows(b5.cfg, b6.cfg)
    ensures Moves(b6.cfg, WhileEnd(b, b6).cfg, CloseIns(b6, ContinueOf(b), b.scope), BreakOf(b))
    ensures Sane(WhileEnd(b, b6).cfg) && Grows(b.cfg, WhileEnd(b, b6).cfg) && WhileEnd(b, b6).cfg.code[BreakOf(b)] == []
  {
    StillEmpty(b5.cfg, b6.cfg, BreakOf(b));
    WhileEndShape(b, b6);
    WhileMoves(b.cfg, b5.cfg, b6.cfg, WhileEnd(b, b6).cfg, CloseIns(b6, ContinueOf(b), b.scope), BreakOf(b));
  }

  lemma WhileHeadGrows(cnd: Cond, ls: Locals, b: Builder) returns (b5: Builder)
    requires Sane(b.cfg)
    ensures b5 == WhileHead(cnd, ls, b) && LoopOpened(b, b5)
  {
    var b3 := WhileEntry(cnd, ls, b);
    WhileEntryShape(cnd, ls, b);
    WhileTestShape(cnd, ls, b, b3);
    b5 := WhileHead(cnd, ls, b);
  }

  // ----- functions -----

  /** create_function does not reset the current loop, and need not: every body restores it. */
  lemma {:induction false} BeforeLoop(src: seq<FnDef>, k: nat)
    requires k <= |src|
    ensures Before(src, k).cfg.loop == NoLoop
    decreases k
  {
    if k > 0 {
      BeforeLoop(src, k - 1);
      BodyLoop(src, k - 1);
    }
  }

  lemma BodyLoop(src: seq<FnDef>, k: nat)
    requires k < |src|
    ensures EndFunction(Before(src, k).scope, BodyOf(src, k)).cfg.loop == Before(src, k).cfg.loop
  {
    BodyGrows(src, k);
  }

  lemma BodyGrows(src: seq<FnDef>, k: nat)
    requires k < |src|
    ensures var b := BeginFunction(src[k], Before(src, k));
            Sane(b.cfg) && Grows(b.cfg, BodyOf(src, k).cfg) && Sane(BodyOf(src, k).cfg)
    ensures BodyOf(src, k).cfg.loop == Before(src, k).cfg.loop
  {
    LowerGrows(src[k].body, Params(|src[k].params|), BeginFunction(src[k], Before(src, k)));
  }
}
