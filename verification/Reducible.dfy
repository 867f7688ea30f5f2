/** Loops are natural: a branch that does not go forward in the block list goes to a loop header that
    every way to the branch has passed. */
module Reducible {
  import opened Types
  import opened Source
  import opened Ir
  import opened Text
  import opened Lowering
  import opened Shapes
  import opened Growth
  import opened Flow
  import opened Layout
  import opened Structure
  import opened Finished

  /** For every block some blocks that each walk to it has passed, itself among them. */
  type Passed = map<Label, set<Label>>

  /** A branch from l to t keeps what the blocks promise, and goes back only to a block passed on the way. */
  ghost predicate LeadsTo(order: seq<Label>, d: Passed, l: Label, t: Label) {
    l in d && t in d && d[t] <= d[l] + {t} && (Place(order, t) <= Place(order, l) ==> t in d[l])
  }

  ghost predicate Led(g: Cfg, d: Passed) {
    d.Keys == g.code.Keys && (forall l :: l in d ==> l in d[l]) &&
    forall l, t :: l in g.order && t in Targets(OpsIn(g, l)) ==> LeadsTo(g.order, d, l, t)
  }

  /** A branch the insertion point may end with. */
  ghost predicate MayJump(g: Cfg, d: Passed, t: Label) {
    g.cur in d && t in d && d[t] <= d[g.cur] + {t} && (t in g.order ==> t in d[g.cur])
  }

  ghost predicate LoopLed(g: Cfg, d: Passed) {
    g.loop.InLoop? ==> MayJump(g, d, g.loop.continueBlock) && MayJump(g, d, g.loop.breakBlock)
  }

  /** From (g, d) to (h, d'): old promises stay, and the new insertion point has passed what the old one had. */
  ghost predicate Kept(g: Cfg, d: Passed, h: Cfg, d': Passed) {
    g.cur in d && h.cur in d' && d[g.cur] <= d'[h.cur] && Agrees(d, d')
  }

  /** Blocks created at (g, d) for a statement that comes to them by way of `via`: its header, if it is a loop. */
  ghost predicate Waiting(g: Cfg, d: Passed, d': Passed, made: set<Label>, via: set<Label>) {
    g.cur in d && forall x :: x in made ==> x in d' && d'[x] == d[g.cur] + via + {x}
  }

  ghost function Created(g: Cfg, d: Passed, made: set<Label>, via: set<Label>): Passed
    requires g.cur in d
  {
    d + map x | x in made :: d[g.cur] + via + {x}
  }

  ghost predicate Agrees(d: Passed, d': Passed) { forall l :: l in d ==> l in d' && d'[l] == d[l] }

  // ----- the two kinds of step -----

  lemma LedAppend(g: Cfg, h: Cfg, ops: seq<Op>, pending: set<Label>, d: Passed)
    requires LaidOut(g, pending) && Appends(g, h, ops) && Led(g, d)
    requires forall t :: t in Targets(ops) ==> MayJump(g, d, t)
    ensures Led(h, d) && Kept(g, d, h, d)
  {
    hide Targets, Closed, Open;
    DefsAppend(OpsIn(g, g.cur), ops);
    CurPlace(g, pending);
    forall l, t | l in h.order && t in Targets(OpsIn(h, l))
      ensures LeadsTo(h.order, d, l, t)
    {
      if l != g.cur {
        Untouched(g, h, ops, l);
      }
    }
  }

  /** Where a block of the old list branches to still suits it once l has been added. */
  lemma LaterLeads(order: seq<Label>, l: Label, d: Passed, d': Passed, x: Label, t: Label)
    requires x in order && l !in order && LeadsTo(order, d, x, t)
    requires Agrees(d, d')
    ensures LeadsTo(order + [l], d', x, t)
  {
    PlaceAppend(order, l, x);
    PlaceAppend(order, l, t);
  }

  lemma NewLeads(g: Cfg, l: Label, made: set<Label>, via: set<Label>, d: Passed, t: Label)
    requires g.cur in g.order && l !in g.order && (forall x :: x in made ==> x !in g.order && x !in d) && g.cur in d
    requires Place(g.order, g.cur) == |g.order| - 1
    requires if t in made then via <= {t} else MayJump(g, d, t)
    ensures LeadsTo(g.order + [l], Created(g, d, made, via), g.cur, t)
  {
    PlaceAppend(g.order, l, g.cur);
    PlaceAppend(g.order, l, t);
  }

  lemma LedHop(g: Cfg, h: Cfg, ops: seq<Op>, made: set<Label>, via: set<Label>, l: Label, m: Marks, d: Passed)
    requires Inv(g, m) && Hops(g, h, ops, made, l) && l in m.pending + made && Led(g, d)
    requires forall t :: t in Targets(ops) ==> if t in made then via <= {t} else MayJump(g, d, t)
    ensures g.cur in d && Led(h, Created(g, d, made, via)) && Waiting(g, d, Created(g, d, made, via), made, via)
    ensures Agrees(d, Created(g, d, made, via))
  {
    hide Inv, LaidOut, Targets, MayJump, LeadsTo, Place;
    DefsAppend(OpsIn(g, g.cur), ops);
    HopFacts(g, h, ops, made, l, m);
    var d' := Created(g, d, made, via);
    forall x, t | x in h.order && t in Targets(OpsIn(h, x))
      ensures LeadsTo(h.order, d', x, t)
    {
      if x == g.cur && t in Targets(ops) {
        NewLeads(g, l, made, via, d, t);
      } else {
        assert x in g.order && t in Targets(OpsIn(g, x));
        LaterLeads(g.order, l, d, d', x, t);
      }
    }
  }

  lemma HopFacts(g: Cfg, h: Cfg, ops: seq<Op>, made: set<Label>, l: Label, m: Marks)
    requires Inv(g, m) && Hops(g, h, ops, made, l) && l in m.pending + made
    ensures g.cur in g.order && Place(g.order, g.cur) == |g.order| - 1 && l !in g.order && g.cur in g.code
    ensures forall x :: x in g.order ==> x in g.code
    ensures forall x :: x in made ==> x !in g.order && x !in g.code
    ensures forall x :: x in g.code && x != g.cur ==> OpsIn(h, x) == OpsIn(g, x)
    ensures OpsIn(h, l) == [] && Targets([]) == {}
  {
    hide Forward, Marked, Covered, Targets, Closed, Open;
    CurPlace(g, m.pending);
    NoTargets();
    HopKept(g, h, ops, made, l);
    HopCode(g, h, ops, made, l, m);
  }

  // ----- how the facts carry on -----

  /** At (g, m, d), ready for the statements of a lambda. */
  ghost predicate Starts(g: Cfg, m: Marks, d: Passed, ls: Locals) { Begins(g, m, ls) && Led(g, d) && LoopLed(g, d) }

  lemma KeptTrans(f: Cfg, d: Passed, g: Cfg, d1: Passed, h: Cfg, d2: Passed)
    requires Kept(f, d, g, d1) && Kept(g, d1, h, d2)
    ensures Kept(f, d, h, d2)
  {}

  /** break_ and continue_ keep their targets. */
  lemma LoopCarries(g: Cfg, d: Passed, h: Cfg, m: Marks, d': Passed)
    requires Led(g, d) && LoopLed(g, d) && Kept(g, d, h, d') && h.loop == g.loop && LaidOut(h, m.pending) &&
             LoopReady(h, m)
    requires g.loop.InLoop? ==> g.loop.continueBlock in g.order
    ensures LoopLed(h, d')
  {
    hide Targets, Closed, Open, Place;
  }

  lemma StartsAgain(g: Cfg, m: Marks, d: Passed, ls: Locals, h: Cfg, m': Marks, d': Passed, ls': Locals)
    requires Starts(g, m, d, ls) && Begins(h, m', ls') && Led(h, d') && Kept(g, d, h, d') && h.loop == g.loop
    ensures Starts(h, m', d', ls')
  {
    hide Led, Kept, LoopReady, ScopeOk, Forward, Marked, Covered, LaidOut, LoopLed;
    if g.loop.InLoop? {
      LoopListed(g, m);
    }
    LoopCarries(g, d, h, m', d');
  }

  lemma LoopListed(g: Cfg, m: Marks)
    requires LoopReady(g, m) && g.loop.InLoop?
    ensures g.loop.continueBlock in g.order
  {}

  // ----- straight-line statements and exits -----

  lemma StraightLed(g: Cfg, h: Cfg, ins: seq<Ins>, m: Marks, d: Passed)
    requires Inv(g, m) && Led(g, d) && Extends(g, h, ins) && Open(OpsOf(ins))
    ensures Led(h, d) && Kept(g, d, h, d)
  {
    hide Forward, Marked, Covered, LaidOut, Led, Kept;
    ExtendsAppends(g, h, ins);
    OpenTargets(OpsOf(ins));
    LedAppend(g, h, OpsOf(ins), m.pending, d);
  }

  lemma ActionLed(a: Action, ls: Locals, b: Builder, m: Marks, d: Passed)
    requires Starts(b.cfg, m, d, ls)
    ensures Starts(LowerAction(a, ls, b).cfg, m, d, ActionLocals(a, ls, b))
    ensures Kept(b.cfg, d, LowerAction(a, ls, b).cfg, d) && LowerAction(a, ls, b).cfg.loop == b.cfg.loop
  {
    hide Inv, LoopReady, LoopLed, Led, Kept, LowerAction, ActionLocals, Defined, ActionCode, UsesOk, Ascends;
    var c := ActionCode(a, ls, b.cfg.nextReg);
    InvSane(b.cfg, m);
    ActionInv(a, ls, b, m);
    LowerActionShape(a, ls, b);
    ActionTidy(a, ls, b.cfg.nextReg, Defined(b.cfg, m.entry));
    OpsOfWithLoc(c.ops, ActionLoc(a, b));
    StraightLed(b.cfg, LowerAction(a, ls, b).cfg, WithLoc(c.ops, ActionLoc(a, b)), m, d);
    StartsAgain(b.cfg, m, d, ls, LowerAction(a, ls, b).cfg, m, d, ActionLocals(a, ls, b));
  }

  lemma CallLed(fn: FnRef, args: seq<Expr>, ls: Locals, b: Builder, m: Marks, d: Passed)
    requires Starts(b.cfg, m, d, ls)
    ensures Starts(LowerCall(fn, args, ls, b).cfg, m, d, CallLocals(fn, args, ls, b))
    ensures Kept(b.cfg, d, LowerCall(fn, args, ls, b).cfg, d) && LowerCall(fn, args, ls, b).cfg.loop == b.cfg.loop
  {
    hide Inv, LoopReady, LoopLed, Led, Kept, LowerCall, CallLocals, Defined, EmittedArgs, UsesOk, Ascends;
    var c, loc := EmittedArgs(args, ls.vals, b.cfg.nextReg), Loc(CurrentLine(b), b.scope);
    var ops := c.ops + [ICall(c.next, fn.idx, c.res)];
    InvSane(b.cfg, m);
    CallInv(fn, args, ls, b, m);
    LowerCallShape(fn, args, ls, b);
    ArgsTidy(args, ls.vals, b.cfg.nextReg, Defined(b.cfg, m.entry));
    OpsOfWithLoc(ops, loc);
    StraightLed(b.cfg, LowerCall(fn, args, ls, b).cfg, WithLoc(ops, loc), m, d);
    StartsAgain(b.cfg, m, d, ls, LowerCall(fn, args, ls, b).cfg, m, d, CallLocals(fn, args, ls, b));
  }

  lemma ExitLed(b: Builder, text: string, ops: seq<Op>, next: nat, m: Marks, d: Passed)
    requires Inv(b.cfg, m) && Led(b.cfg, d) && next >= b.cfg.nextReg
    requires forall t :: t in Targets(ops) ==> MayJump(b.cfg, d, t)
    ensures Led(Exit(b, text, ops, next).cfg, d) && Kept(b.cfg, d, Exit(b, text, ops, next).cfg, d)
  {
    hide Forward, Marked, Covered, LaidOut, Led, Kept, Targets, MayJump;
    var g, h, loc := b.cfg, Exit(b, text, ops, next).cfg, Loc(CurrentLine(b), b.scope);
    InvSane(g, m);
    ExitShape(b, text, ops, next);
    OpsOfWithLoc(ops, loc);
    OpsOfAppend(g.code[g.cur], WithLoc(ops, loc));
    LedAppend(g, h, ops, m.pending, d);
  }

  lemma JumpLed(b: Builder, text: string, t: Label, m: Marks, d: Passed)
    requires Inv(b.cfg, m) && Led(b.cfg, d) && MayJump(b.cfg, d, t)
    ensures var h := Exit(b, text, [IBr(t)], b.cfg.nextReg).cfg; Led(h, d) && Kept(b.cfg, d, h, d)
  {
    hide Inv, Led, Kept, MayJump, Exit;
    OneClosed(IBr(t), {});
    ExitLed(b, text, [IBr(t)], b.cfg.nextReg, m, d);
  }

  lemma ReturnLed(e: Expr, ls: Locals, b: Builder, m: Marks, d: Passed)
    requires Starts(b.cfg, m, d, ls)
    ensures Led(LowerReturn(e, ls, b).cfg, d) && Kept(b.cfg, d, LowerReturn(e, ls, b).cfg, d)
  {
    hide Inv, Led, Kept, LoopReady, LoopLed, Exit, Tidy, Targets, Defs, Closed, UsesOk, Defined;
    var c := Emitted(e, ls.vals, b.cfg.nextReg);
    EmittedNext(e, ls.vals, b.cfg.nextReg);
    EmittedTidy(e, ls.vals, b.cfg.nextReg, Defined(b.cfg, m.entry));
    MoreClosed(c.ops, IRet(Some(c.res)), Defined(b.cfg, m.entry), b.cfg.nextReg, c.next);
    ExitLed(b, "return " + Show(e, ls.vals) + ";", c.ops + [IRet(Some(c.res))], c.next, m, d);
  }

  lemma ReturnVoidLed(ls: Locals, b: Builder, m: Marks, d: Passed)
    requires Starts(b.cfg, m, d, ls)
    ensures Led(LowerReturnVoid(b).cfg, d) && Kept(b.cfg, d, LowerReturnVoid(b).cfg, d)
  {
    hide Inv, Led, Kept, LoopReady, LoopLed, Exit;
    OneClosed(IRet(None), {});
    ExitLed(b, "return;", [IRet(None)], b.cfg.nextReg, m, d);
  }

  // ----- branching statements -----

  /** The test that opens a branching statement. */
  lemma OpenLed(g: Cfg, h: Cfg, ins: seq<Ins>, made: set<Label>, via: set<Label>, l: Label, m: Marks, d: Passed)
    returns (d': Passed)
    requires Inv(g, m) && Led(g, d) && !g.exited && Branches(g, h, ins, made) && l in made
    requires h.cur == l && h.order == g.order + [l]
    requires forall t :: t in Targets(OpsOf(ins)) ==> t in made && via <= {t}
    ensures Led(h, d') && Kept(g, d, h, d') && Waiting(g, d, d', made, via)
  {
    hide Inv, Led, Targets, Branches, Hops;
    InvSane(g, m);
    BranchFacts(g, h, ins, made, l);
    LedHop(g, h, OpsOf(ins), made, via, l, m, d);
    d' := Created(g, d, made, via);
  }

  /** Closing a block and going on in one that waits. */
  lemma CloseLed(g: Cfg, h: Cfg, ins: seq<Ins>, m: Marks, l: Label, t: Label, d: Passed)
    requires Inv(g, m) && Led(g, d) && Moves(g, h, ins, l) && l in m.pending && MayJump(g, d, t)
    requires OpsOf(ins) == if g.exited then [] else [IBr(t)]
    ensures Led(h, d) && h.cur == l
  {
    hide Inv, Led, Hops, MayJump;
    MoveHop(g, h, ins, l);
    NoTargets();
    OneClosed(IBr(t), {});
    LedHop(g, h, OpsOf(ins), {}, {}, l, m, d);
    assert Created(g, d, {}, {}) == d;
  }

  /** A waiting block may be branched to from wherever its statement has got to. */
  lemma WaitingJump(b: Cfg, d: Passed, d0: Passed, made: set<Label>, via: set<Label>, g: Cfg, m: Marks, d': Passed,
      t: Label)
    requires Waiting(b, d, d0, made, via) && t in made && Agrees(d0, d') && Kept(b, d, g, d') && via <= d'[g.cur]
    requires Inv(g, m) && t in m.pending
    ensures MayJump(g, d', t)
  {
    hide Forward, Marked, Covered, Targets, Closed, Open;
  }

  /** A branching statement that began at (g, m, d) goes on in block l, which it created there. */
  lemma RejoinLed(g: Cfg, m: Marks, d: Passed, ls: Locals, d0: Passed, made: set<Label>, via: set<Label>, g2: Cfg,
      k2: Marks, d2: Passed, h: Cfg, ins: seq<Ins>, l: Label, t: Label, k: Marks)
    requires Starts(g, m, d, ls) && Waiting(g, d, d0, made, via) && Agrees(d0, d2) && Kept(g, d, g2, d2)
    requires Led(g2, d2) && Inv(g2, k2) && l in made && l in k2.pending && MayJump(g2, d2, t)
    requires Moves(g2, h, ins, l) && OpsOf(ins) == (if g2.exited then [] else [IBr(t)])
    requires Begins(h, k, ls) && h.loop == g.loop
    ensures Starts(h, k, d2, ls) && Kept(g, d, h, d2)
  {
    hide Starts, Led, Begins, Inv, Moves, MayJump;
    CloseLed(g2, h, ins, k2, l, t, d2);
    StartsAgain(g, m, d, ls, h, k, d2, ls);
  }

  /** The blocks a statement still waits for after one of its arms. */
  lemma ArmPending(b: Cfg, m: Marks, waiting: set<Label>, g: Cfg, k: Marks, h: Cfg, k': Marks, falls: bool)
    requires Stage(b, m, waiting, g, k) && Follows(g, k, h, k', falls)
    ensures waiting <= k'.pending && h.loop == g.loop
  {
    hide Extended, Defined;
  }

  lemma IfHeadLed(e: Expr, ls: Locals, b: Builder, m: Marks, d: Passed, k: Marks) returns (d': Passed)
    requires Starts(b.cfg, m, d, ls) && Begins(IfHead(e, ls, b).cfg, k, ls)
    ensures var h := IfHead(e, ls, b).cfg;
            Starts(h, k, d', ls) && Kept(b.cfg, d, h, d') &&
            Waiting(b.cfg, d, d', {TrueOf(b), FalseOf(b), MergeOf(b)}, {})
  {
    hide Inv, Led, LoopReady, LoopLed, Kept, Closed, Targets, Branches, IfHead, Defined, TestIns, OpsOf, Waiting;
    var ins := TestIns(e, ls, b, TrueOf(b), FalseOf(b));
    InvSane(b.cfg, m);
    IfHeadShape(e, ls, b);
    TestClosed(e, ls, b, TrueOf(b), FalseOf(b), Defined(b.cfg, m.entry));
    d' := OpenLed(b.cfg, IfHead(e, ls, b).cfg, ins, {TrueOf(b), FalseOf(b), MergeOf(b)}, {}, TrueOf(b), m, d);
    StartsAgain(b.cfg, m, d, ls, IfHead(e, ls, b).cfg, k, d', ls);
  }

  lemma IfThenHeadLed(e: Expr, ls: Locals, b: Builder, m: Marks, d: Passed, k: Marks) returns (d': Passed)
    requires Starts(b.cfg, m, d, ls) && Begins(IfThenHead(e, ls, b).cfg, k, ls)
    ensures var h := IfThenHead(e, ls, b).cfg;
            Starts(h, k, d', ls) && Kept(b.cfg, d, h, d') &&
            Waiting(b.cfg, d, d', {TrueOf(b), MergeOnlyOf(b)}, {})
  {
    hide Inv, Led, LoopReady, LoopLed, Kept, Closed, Targets, Branches, IfThenHead, Defined, TestIns, OpsOf, Waiting;
    var ins := TestIns(e, ls, b, TrueOf(b), MergeOnlyOf(b));
    InvSane(b.cfg, m);
    IfThenHeadShape(e, ls, b);
    TestClosed(e, ls, b, TrueOf(b), MergeOnlyOf(b), Defined(b.cfg, m.entry));
    d' := OpenLed(b.cfg, IfThenHead(e, ls, b).cfg, ins, {TrueOf(b), MergeOnlyOf(b)}, {}, TrueOf(b), m, d);
    StartsAgain(b.cfg, m, d, ls, IfThenHead(e, ls, b).cfg, k, d', ls);
  }

  /** At the end of an arm: where control meets again, and where the next lambda starts. */
  lemma IfElseLed(b: Builder, m: Marks, d: Passed, ls: Locals, d1: Passed, b2: Builder, k2: Marks, d2: Passed,
      k: Marks)
    requires Starts(b.cfg, m, d, ls) && Waiting(b.cfg, d, d1, {TrueOf(b), FalseOf(b), MergeOf(b)}, {}) &&
             Agrees(d1, d2)
    requires Kept(b.cfg, d, b2.cfg, d2) && Led(b2.cfg, d2) && Inv(b2.cfg, k2) && {FalseOf(b), MergeOf(b)} <= k2.pending
    requires Begins(IfElse(b, b2).cfg, k, ls) && b2.cfg.loop == b.cfg.loop
    ensures Starts(IfElse(b, b2).cfg, k, d2, ls) && Kept(b.cfg, d, IfElse(b, b2).cfg, d2)
  {
    hide Starts, Led, Begins, Inv, Moves, MayJump, IfElse, Waiting, CloseIns, OpsOf, Agrees;
    var made, ins := {TrueOf(b), FalseOf(b), MergeOf(b)}, CloseIns(b2, MergeOf(b), b.scope);
    WaitingClear(b2.cfg, k2, FalseOf(b));
    WaitingJump(b.cfg, d, d1, made, {}, b2.cfg, k2, d2, MergeOf(b));
    IfElseShape(b, b2);
    CloseOps(b2, MergeOf(b), b.scope);
    RejoinLed(b.cfg, m, d, ls, d1, made, {}, b2.cfg, k2, d2, IfElse(b, b2).cfg, ins, FalseOf(b), MergeOf(b), k);
  }

  lemma IfEndLed(b: Builder, m: Marks, d: Passed, ls: Locals, d1: Passed, b4: Builder, k4: Marks, d4: Passed, k: Marks)
    requires Starts(b.cfg, m, d, ls) && Waiting(b.cfg, d, d1, {TrueOf(b), FalseOf(b), MergeOf(b)}, {}) &&
             Agrees(d1, d4)
    requires Kept(b.cfg, d, b4.cfg, d4) && Led(b4.cfg, d4) && Inv(b4.cfg, k4) && MergeOf(b) in k4.pending
    requires Begins(IfEnd(b, b4).cfg, k, ls) && b4.cfg.loop == b.cfg.loop
    ensures Starts(IfEnd(b, b4).cfg, k, d4, ls) && Kept(b.cfg, d, IfEnd(b, b4).cfg, d4)
  {
    hide Starts, Led, Begins, Inv, Moves, MayJump, IfEnd, Waiting, CloseIns, OpsOf, Agrees;
    var made, ins := {TrueOf(b), FalseOf(b), MergeOf(b)}, CloseIns(b4, MergeOf(b), b.scope);
    WaitingClear(b4.cfg, k4, MergeOf(b));
    WaitingJump(b.cfg, d, d1, made, {}, b4.cfg, k4, d4, MergeOf(b));
    IfEndShape(b, b4);
    CloseOps(b4, MergeOf(b), b.scope);
    RejoinLed(b.cfg, m, d, ls, d1, made, {}, b4.cfg, k4, d4, IfEnd(b, b4).cfg, ins, MergeOf(b), MergeOf(b), k);
  }

  lemma IfThenEndLed(b: Builder, m: Marks, d: Passed, ls: Locals, d1: Passed, b2: Builder, k2: Marks, d2: Passed,
      k: Marks)
    requires Starts(b.cfg, m, d, ls) && Waiting(b.cfg, d, d1, {TrueOf(b), MergeOnlyOf(b)}, {}) && Agrees(d1, d2)
    requires Kept(b.cfg, d, b2.cfg, d2) && Led(b2.cfg, d2) && Inv(b2.cfg, k2) && MergeOnlyOf(b) in k2.pending
    requires Begins(IfThenEnd(b, b2).cfg, k, ls) && b2.cfg.loop == b.cfg.loop
    ensures Starts(IfThenEnd(b, b2).cfg, k, d2, ls) && Kept(b.cfg, d, IfThenEnd(b, b2).cfg, d2)
  {
    hide Starts, Led, Begins, Inv, Moves, MayJump, IfThenEnd, Waiting, CloseIns, OpsOf, Agrees;
    var made, ins := {TrueOf(b), MergeOnlyOf(b)}, CloseIns(b2, MergeOnlyOf(b), b.scope);
    WaitingClear(b2.cfg, k2, MergeOnlyOf(b));
    WaitingJump(b.cfg, d, d1, made, {}, b2.cfg, k2, d2, MergeOnlyOf(b));
    IfThenEndShape(b, b2);
    CloseOps(b2, MergeOnlyOf(b), b.scope);
    RejoinLed(b.cfg, m, d, ls, d1, made, {}, b2.cfg, k2, d2, IfThenEnd(b, b2).cfg, ins, MergeOnlyOf(b),
        MergeOnlyOf(b), k);
  }

  // ----- while_ -----

  function LoopBlocks(b: Builder): set<Label> { {ContinueOf(b), IterationOf(b), BreakOf(b)} }

  lemma WhileEntryLed(cnd: Cond, ls: Locals, b: Builder, m: Marks, d: Passed) returns (d': Passed)
    requires Starts(b.cfg, m, d, ls)
    ensures var h := WhileEntry(cnd, ls, b).cfg;
            Led(h, d') && Kept(b.cfg, d, h, d') && Waiting(b.cfg, d, d', LoopBlocks(b), {ContinueOf(b)})
  {
    hide Inv, Led, LoopReady, LoopLed, Kept, Closed, Targets, Branches, WhileEntry, Defined, EntryIns, OpsOf, Waiting;
    InvSane(b.cfg, m);
    WhileEntryShape(cnd, ls, b);
    EntryClosed(cnd, ls, b, Defined(b.cfg, m.entry));
    d' := OpenLed(b.cfg, WhileEntry(cnd, ls, b).cfg, EntryIns(cnd, ls, b), LoopBlocks(b), {ContinueOf(b)},
      ContinueOf(b), m, d);
  }

  lemma WhileTestLed(cnd: Cond, ls: Locals, b: Builder, d: Passed, b3: Builder, k3: Marks, d3: Passed, k: Marks)
    requires Inv(b3.cfg, k3) && !b3.cfg.exited && Led(b3.cfg, d3) && Kept(b.cfg, d, b3.cfg, d3)
    requires Waiting(b.cfg, d, d3, LoopBlocks(b), {ContinueOf(b)}) && {IterationOf(b), BreakOf(b)} <= k3.pending
    requires b3.cfg.cur == ContinueOf(b) && ScopeOk(ls.vals, Defined(b3.cfg, k3.entry))
    requires var h := WhileTest(cnd, ls, b, b3).cfg;
             Begins(h, k, ls) && h.loop == InLoop(ContinueOf(b), BreakOf(b)) && BreakOf(b) in k.pending
    ensures Starts(WhileTest(cnd, ls, b, b3).cfg, k, d3, ls) && Kept(b.cfg, d, WhileTest(cnd, ls, b, b3).cfg, d3)
    ensures WhileTest(cnd, ls, b, b3).cfg.cur == IterationOf(b)
  {
    hide Begins, Inv, Led, Closed, Targets, Hops, WhileTest, Defined, HeaderIns, OpsOf, MayJump;
    var ops, i, x := OpsOf(HeaderIns(cnd, ls, b, b3)), IterationOf(b), BreakOf(b);
    InvSane(b3.cfg, k3);
    WaitingClear(b3.cfg, k3, i);
    WhileTestHop(cnd, ls, b, b3);
    HeaderClosed(cnd, ls, b, b3, Defined(b3.cfg, k3.entry));
    WaitingJump(b.cfg, d, d3, LoopBlocks(b), {ContinueOf(b)}, b3.cfg, k3, d3, i);
    WaitingJump(b.cfg, d, d3, LoopBlocks(b), {ContinueOf(b)}, b3.cfg, k3, d3, x);
    LedHop(b3.cfg, WhileTest(cnd, ls, b, b3).cfg, ops, {}, {}, i, k3, d3);
    assert Created(b3.cfg, d3, {}, {}) == d3;
    HopCur(b3.cfg, WhileTest(cnd, ls, b, b3).cfg, ops, i);
    BeginsInv(WhileTest(cnd, ls, b, b3).cfg, k, ls);
    BodyLed(b, d, d3, WhileTest(cnd, ls, b, b3).cfg, k);
  }

  lemma HopCur(g: Cfg, h: Cfg, ops: seq<Op>, l: Label)
    requires Hops(g, h, ops, {}, l)
    ensures h.cur == l
  {}

  lemma BeginsInv(g: Cfg, m: Marks, ls: Locals)
    requires Begins(g, m, ls)
    ensures Inv(g, m) && LaidOut(g, m.pending) && g.cur in g.code && !g.exited
  {}

  /** In the loop's first block both of its targets may be branched to. */
  lemma BodyLed(b: Builder, d: Passed, d3: Passed, h: Cfg, k: Marks)
    requires Waiting(b.cfg, d, d3, LoopBlocks(b), {ContinueOf(b)}) && h.cur == IterationOf(b)
    requires h.loop == InLoop(ContinueOf(b), BreakOf(b)) && LaidOut(h, k.pending) && BreakOf(b) in k.pending
    ensures LoopLed(h, d3)
  {
    hide Targets, Closed, Open;
  }

  lemma WhileEndLed(b: Builder, m: Marks, d: Passed, ls: Locals, d3: Passed, b5: Builder, b6: Builder, k6: Marks,
      d6: Passed, k: Marks)
    requires Starts(b.cfg, m, d, ls) && Waiting(b.cfg, d, d3, LoopBlocks(b), {ContinueOf(b)}) && Agrees(d3, d6)
    requires Kept(b.cfg, d, b6.cfg, d6) && Kept(b5.cfg, d3, b6.cfg, d6) && b5.cfg.cur == IterationOf(b)
    requires Led(b6.cfg, d6) && Inv(b6.cfg, k6) && BreakOf(b) in k6.pending && Begins(WhileEnd(b, b6).cfg, k, ls)
    ensures Starts(WhileEnd(b, b6).cfg, k, d6, ls) && Kept(b.cfg, d, WhileEnd(b, b6).cfg, d6)
  {
    hide Starts, Led, Begins, Inv, Moves, WhileEnd, CloseIns, OpsOf;
    var ins, x, c := CloseIns(b6, ContinueOf(b), b.scope), BreakOf(b), ContinueOf(b);
    WaitingClear(b6.cfg, k6, x);
    WhileEndShape(b, b6);
    CloseOps(b6, c, b.scope);
    RejoinLed(b.cfg, m, d, ls, d3, LoopBlocks(b), {c}, b6.cfg, k6, d6, WhileEnd(b, b6).cfg, ins, x, c, k);
  }

  // ----- every lambda -----

  ghost predicate Leads(g: Cfg, d: Passed, h: Cfg, d': Passed) { Led(h, d') && Kept(g, d, h, d') }

  /** The induction. */
  lemma {:induction false} LowerLed(c: Code, ls: Locals, b: Builder, m: Marks, d: Passed) returns (d': Passed)
    requires Starts(b.cfg, m, d, ls) && LoopOk(c, b.cfg.loop.InLoop?)
    ensures Leads(b.cfg, d, Lower(c, ls, b).cfg, d')
    decreases c, 2
  {
    hide Begins, Led, LoopReady, Kept, MayJump, LowerReturn, LowerReturnVoid, LowerIf, LowerIfThen, LowerWhile,
         Exit, LowerAction, ActionLocals, LowerCall, CallLocals;
    d' := d;
    match c
    case Done => StaysLed(b.cfg, m, d, ls);
    case Break => BeginsInv(b.cfg, m, ls); JumpLed(b, "break;", b.cfg.loop.breakBlock, m, d);
    case Continue => BeginsInv(b.cfg, m, ls); JumpLed(b, "continue;", b.cfg.loop.continueBlock, m, d);
    case Return(e) => ReturnLed(e, ls, b, m, d);
    case ReturnVoid => ReturnVoidLed(ls, b, m, d);
    case Act(a, next) =>
      ActionLed(a, ls, b, m, d);
      d' := NextLed(c, next, ActionLocals(a, ls, b), b, d, LowerAction(a, ls, b), m, d);
    case Call(fn, args, next) =>
      CallLed(fn, args, ls, b, m, d);
      d' := NextLed(c, next, CallLocals(fn, args, ls, b), b, d, LowerCall(fn, args, ls, b), m, d);
    case If(e, t, f, next) => d' := IfLed(e, t, f, next, ls, b, m, d);
    case IfThen(e, t, next) => d' := IfThenLed(e, t, next, ls, b, m, d);
    case While(cnd, body, next) => d' := WhileLed(cnd, body, next, ls, b, m, d);
  }

  lemma StaysLed(g: Cfg, m: Marks, d: Passed, ls: Locals)
    requires Starts(g, m, d, ls)
    ensures Leads(g, d, g, d)
  {
    BeginsInv(g, m, ls);
  }

  /** A statement, then the rest of its lambda. */
  lemma {:induction false} NextLed(whole: Code, next: Code, ls: Locals, b: Builder, d: Passed, b1: Builder, m1: Marks,
      d1: Passed) returns (d': Passed)
    requires next < whole && Starts(b1.cfg, m1, d1, ls) && LoopOk(next, b1.cfg.loop.InLoop?) &&
             Kept(b.cfg, d, b1.cfg, d1)
    ensures Leads(b.cfg, d, Lower(next, ls, b1).cfg, d')
    decreases whole, 0
  {
    hide Begins, Led, LoopLed, Kept, Lower;
    d' := LowerLed(next, ls, b1, m1, d1);
    KeptTrans(b.cfg, d, b1.cfg, d1, Lower(next, ls, b1).cfg, d');
  }

  /** The statements of an arm that began at (b1, d1). */
  lemma {:induction false} ArmLed(whole: Code, c: Code, ls: Locals, b: Builder, d: Passed, b1: Builder, k1: Marks,
      d1: Passed) returns (d': Passed)
    requires c < whole && Starts(b1.cfg, k1, d1, ls) && LoopOk(c, b1.cfg.loop.InLoop?) && Kept(b.cfg, d, b1.cfg, d1)
    ensures var h := Lower(c, ls, b1).cfg;
            Led(h, d') && Kept(b.cfg, d, h, d') && Kept(b1.cfg, d1, h, d') && Agrees(d1, d')
    decreases whole, 0
  {
    hide Begins, Led, LoopLed, Lower;
    d' := LowerLed(c, ls, b1, k1, d1);
  }

  lemma {:induction false} IfLed(e: Expr, t: Code, f: Code, next: Code, ls: Locals, b: Builder, m: Marks, d: Passed)
    returns (d': Passed)
    requires Starts(b.cfg, m, d, ls) && LoopOk(If(e, t, f, next), b.cfg.loop.InLoop?)
    ensures Leads(b.cfg, d, LowerIf(e, t, f, next, ls, b).cfg, d')
    decreases If(e, t, f, next), 1
  {
    hide Inv, Led, LoopReady, LoopLed, Kept, Waiting, Lower, IfHead, IfElse, IfEnd, Extended, Stage, FallsThrough,
         Leads, Defined, Trace, Log, TestIns, CloseIns;
    var whole, b1, x, y := If(e, t, f, next), IfHead(e, ls, b), FalseOf(b), MergeOf(b);
    var k1 := IfHeadInv(e, ls, b, m);
    var d1 := IfHeadLed(e, ls, b, m, d, k1);
    var b2 := Lower(t, ls, b1);
    var k2 := LowerInv(t, ls, b1, k1);
    var d2 := ArmLed(whole, t, ls, b, d, b1, k1, d1);
    ArmPending(b.cfg, m, {x, y}, b1.cfg, k1, b2.cfg, k2, FallsThrough(t));
    var b3 := IfElse(b, b2);
    var k3 := IfElseInv(b, m, b1, k1, b2, k2, FallsThrough(t), ls);
    IfElseLed(b, m, d, ls, d1, b2, k2, d2, k3);
    var b4 := Lower(f, ls, b3);
    var k4 := LowerInv(f, ls, b3, k3);
    var d4 := ArmLed(whole, f, ls, b, d, b3, k3, d2);
    ArmPending(b.cfg, m, {y}, b3.cfg, k3, b4.cfg, k4, FallsThrough(f));
    var k5 := IfEndInv(b, m, b3, k3, b4, k4, FallsThrough(t), FallsThrough(f), ls);
    IfEndLed(b, m, d, ls, d1, b4, k4, d4, k5);
    d' := NextLed(whole, next, ls, b, d, IfEnd(b, b4), k5, d4);
  }

  lemma {:induction false} IfThenLed(e: Expr, t: Code, next: Code, ls: Locals, b: Builder, m: Marks, d: Passed)
    returns (d': Passed)
    requires Starts(b.cfg, m, d, ls) && LoopOk(IfThen(e, t, next), b.cfg.loop.InLoop?)
    ensures Leads(b.cfg, d, LowerIfThen(e, t, next, ls, b).cfg, d')
    decreases IfThen(e, t, next), 1
  {
    hide Inv, Led, LoopReady, LoopLed, Kept, Waiting, Lower, IfThenHead, IfThenEnd, Extended, Stage, FallsThrough,
         Leads, Defined, Trace, Log, TestIns, CloseIns;
    var whole, b1 := IfThen(e, t, next), IfThenHead(e, ls, b);
    var k1 := IfThenHeadInv(e, ls, b, m);
    var d1 := IfThenHeadLed(e, ls, b, m, d, k1);
    var b2 := Lower(t, ls, b1);
    var k2 := LowerInv(t, ls, b1, k1);
    var d2 := ArmLed(whole, t, ls, b, d, b1, k1, d1);
    ArmPending(b.cfg, m, {MergeOnlyOf(b)}, b1.cfg, k1, b2.cfg, k2, FallsThrough(t));
    var k3 := IfThenEndInv(b, m, b1, k1, b2, k2, FallsThrough(t), ls);
    IfThenEndLed(b, m, d, ls, d1, b2, k2, d2, k3);
    d' := NextLed(whole, next, ls, b, d, IfThenEnd(b, b2), k3, d2);
  }

  lemma {:induction false} WhileLed(cnd: Cond, body: Code, next: Code, ls: Locals, b: Builder, m: Marks, d: Passed)
    returns (d': Passed)
    requires Starts(b.cfg, m, d, ls) && LoopOk(While(cnd, body, next), b.cfg.loop.InLoop?)
    ensures Leads(b.cfg, d, LowerWhile(cnd, body, next, ls, b).cfg, d')
    decreases While(cnd, body, next), 1
  {
    hide Inv, Led, LoopReady, LoopLed, Kept, Waiting, Lower, WhileEntry, WhileTest, WhileEnd, Extended, FallsThrough,
         Leads, Defined, Trace, Log, EntryIns, HeaderIns, CloseIns;
    var whole, b3 := While(cnd, body, next), WhileEntry(cnd, ls, b);
    var k3 := WhileEntryInv(cnd, ls, b, m);
    var d3 := WhileEntryLed(cnd, ls, b, m, d);
    var b5 := WhileTest(cnd, ls, b, b3);
    var k5 := WhileTestInv(cnd, ls, b, m, b3, k3);
    WhileTestLed(cnd, ls, b, d, b3, k3, d3, k5);
    var b6 := Lower(body, ls, b5);
    var k6 := LowerInv(body, ls, b5, k5);
    var d6 := ArmLed(whole, body, ls, b, d, b5, k5, d3);
    ArmPending(b.cfg, m, {BreakOf(b)}, b5.cfg, k5, b6.cfg, k6, FallsThrough(body));
    var k7 := WhileEndInv(b, m, b5, k5, b6, k6, FallsThrough(body), ls);
    WhileEndLed(b, m, d, ls, d3, b5, b6, k6, d6, k7);
    d' := NextLed(whole, next, ls, b, d, WhileEnd(b, b6), k7, d6);
  }

  // ----- finished functions -----

  lemma StartLed(f: FnDef, b0: Builder, m: Marks)
    requires b0.cfg.loop == NoLoop && Begins(BeginFunction(f, b0).cfg, m, Params(|f.params|))
    ensures Starts(BeginFunction(f, b0).cfg, m, map[ENTRY := {ENTRY}], Params(|f.params|))
  {
    hide Begins;
    NoTargets();
  }

  lemma FunctionLed(src: seq<FnDef>, k: nat) returns (m: Marks, d: Passed)
    requires k < |src| && LoopOk(src[k].body, false)
    ensures var g := BodyOf(src, k).cfg;
            Inv(g, m) && m.pending == {} && Led(g, d) && ENTRY in d && d[ENTRY] == {ENTRY}
  {
    hide Inv, Led, Begins, BeginFunction, Lower, LoopLed;
    var b, n, d0 := BeginFunction(src[k], Before(src, k)), |src[k].params|, map[ENTRY := {ENTRY}];
    var m0 := Marks({}, {ENTRY}, map[ENTRY := ParamRegs(n)]);
    m := BodyInv(src, k);
    BeforeLoop(src, k);
    StartInv(src[k], Before(src, k), m0);
    StartLed(src[k], Before(src, k), m0);
    d := LowerLed(src[k].body, Params(n), b, m0, d0);
    assert ENTRY in d0;
  }

  lemma {:induction false} WalkLed(g: Cfg, m: Marks, d: Passed, p: seq<Label>, n: nat)
    requires Inv(g, m) && m.pending == {} && Led(g, d) && ENTRY in d && d[ENTRY] == {ENTRY}
    requires Walk(Finish(g), p) && p[0] == ENTRY && n < |p|
    ensures p[n] in d && forall x :: x in d[p[n]] ==> x in p[..n + 1]
    decreases n
  {
    hide Inv, Led, Finish, Targets;
    if n == 0 {
      assert p[..1] == [ENTRY];
    } else {
      WalkLed(g, m, d, p, n - 1);
      assert FnEdge(Finish(g), p[n - 1], p[n - 1 + 1]);
      BranchLed(g, m, d, p[n - 1], p[n]);
      assert p[..n + 1] == p[..n] + [p[n]];
    }
  }

  lemma BranchLed(g: Cfg, m: Marks, d: Passed, l: Label, t: Label)
    requires Inv(g, m) && m.pending == {} && Led(g, d) && FnEdge(Finish(g), l, t)
    ensures LeadsTo(g.order, d, l, t)
  {
    hide Forward, Marked, Covered, Targets, LeadsTo, Closed, Open;
    FinishOps(g, l);
  }

  /** A branch goes forward in the list, or back to a loop header that every walk from the entry has
      passed by the time it comes to the branch: without the backward branches no cycle is left, and
      each of them goes to a block that dominates it. */
  lemma Reducible(src: seq<FnDef>, k: nat, l: Label, t: Label, p: seq<Label>)
    requires k < |src| && LoopOk(src[k].body, false)
    requires FnEdge(CompileFn(src, k), l, t) && WalkTo(CompileFn(src, k), p, l)
    ensures Place(CompileFn(src, k).order, l) < Place(CompileFn(src, k).order, t) || (t.kind == WhileContinue && t in p)
  {
    hide Inv, Led, BodyOf, FnEdge, Place, EndsInExit;
    FunctionWellFormed(src, k);
    var g := BodyOf(src, k).cfg;
    var m, d := FunctionLed(src, k);
    WalkLed(g, m, d, p, |p| - 1);
    BranchLed(g, m, d, l, t);
    assert p[..|p| - 1 + 1] == p;
  }
}
