/** The graph a whole lambda leaves: one induction over the syntax tree keeps the layout, the
    reachability marks and the definitions-before-uses map together. */
module Structure {
  import opened Types
  import opened Source
  import opened Ir
  import opened Text
  import opened Lowering
  import opened Shapes
  import opened Growth
  import opened Flow
  import opened Layout

  /** The lambda ends in break_, continue_ or return_. */
  predicate EndsInExit(c: Code) {
    match c
    case Done => false
    case Act(_, next) => EndsInExit(next)
    case Call(_, _, next) => EndsInExit(next)
    case If(_, _, _, next) => EndsInExit(next)
    case IfThen(_, _, next) => EndsInExit(next)
    case While(_, _, next) => EndsInExit(next)
    case _ => true
  }

  /** Some path through the lambda, every test free to go either way, gets to its end. */
  predicate FallsThrough(c: Code) {
    match c
    case Done => true
    case Act(_, next) => FallsThrough(next)
    case Call(_, _, next) => FallsThrough(next)
    case If(_, t, f, next) => (FallsThrough(t) || FallsThrough(f)) && FallsThrough(next)
    case IfThen(_, _, next) => FallsThrough(next)
    case While(_, _, next) => FallsThrough(next)
    case _ => false
  }

  /** From (g, m) to (h, m'), blocks from number n on being new: old marks stay, only new blocks
      become reachable, and none do when the insertion point was not. */
  ghost predicate Extended(n: nat, g: Cfg, m: Marks, h: Cfg, m': Marks) {
    m.reached <= m'.reached && (forall l :: l in m'.reached ==> l in m.reached || l.id >= n) &&
    (g.cur !in m.reached ==> m'.reached == m.reached) &&
    (forall l :: l in m.entry ==> l in m'.entry && m'.entry[l] == m.entry[l]) &&
    g.order <= h.order && (h.cur == g.cur || h.cur.id >= n) && n <= h.nextLabel &&
    (forall l :: l in h.code ==> l in g.code || l.id >= n)
  }

  ghost predicate Live(g: Cfg, m: Marks) { g.cur in m.reached && !g.exited }

  /** What lowering a lambda does, as seen from where it starts. */
  ghost predicate Follows(g: Cfg, m: Marks, h: Cfg, m': Marks, falls: bool) {
    Extended(g.nextLabel, g, m, h, m') && m'.pending == m.pending && h.loop == g.loop &&
    Defined(g, m.entry) <= Defined(h, m'.entry) && (Live(h, m') <==> Live(g, m) && falls)
  }

  ghost predicate Begins(g: Cfg, m: Marks, ls: Locals) {
    Inv(g, m) && !g.exited && LoopReady(g, m) && ScopeOk(ls.vals, Defined(g, m.entry))
  }

  // ----- composition -----

  lemma ExtendedTrans(n: nat, f: Cfg, m: Marks, g: Cfg, m1: Marks, h: Cfg, m2: Marks)
    requires Extended(n, f, m, g, m1) && Extended(n, g, m1, h, m2)
    requires forall l :: l in m.reached ==> l.id < n
    ensures Extended(n, f, m, h, m2)
  {}

  lemma ExtendedLater(n: nat, n': nat, g: Cfg, m: Marks, h: Cfg, m': Marks)
    requires Extended(n', g, m, h, m') && n <= n'
    ensures Extended(n, g, m, h, m')
  {}

  lemma ReachedOld(g: Cfg, m: Marks)
    requires Inv(g, m)
    ensures forall l :: l in m.reached ==> l.id < g.nextLabel
  {}

  lemma FollowsTrans(f: Cfg, m: Marks, g: Cfg, m1: Marks, h: Cfg, m2: Marks, a: bool, b: bool)
    requires Inv(f, m) && Follows(f, m, g, m1, a) && Follows(g, m1, h, m2, b)
    ensures Follows(f, m, h, m2, a && b)
  {
    ReachedOld(f, m);
    ExtendedLater(f.nextLabel, g.nextLabel, g, m1, h, m2);
    ExtendedTrans(f.nextLabel, f, m, g, m1, h, m2);
  }

  lemma {:induction false} PlacePrefix(xs: seq<Label>, ys: seq<Label>, l: Label)
    requires xs <= ys && l in xs
    ensures Place(ys, l) == Place(xs, l)
    decreases |xs|
  {
    if xs[0] != l {
      assert xs[1..] <= ys[1..];
      PlacePrefix(xs[1..], ys[1..], l);
    }
  }

  /** break_ and continue_ keep their targets while inner statements are generated. */
  lemma LoopStays(n: nat, g: Cfg, m: Marks, h: Cfg, m': Marks)
    requires LoopReady(g, m) && Extended(n, g, m, h, m') && h.loop == g.loop && m.pending <= m'.pending
    requires Defined(g, m.entry) <= Defined(h, m'.entry) && (h.cur in m'.reached ==> g.cur in m.reached)
    ensures LoopReady(h, m')
  {
    hide Defined, LaidOut;
    if g.loop.InLoop? {
      var c := g.loop.continueBlock;
      PlacePrefix(g.order, h.order, c);
      PlacePrefix(g.order, h.order, HeadOf(c));
    }
  }

  lemma FollowsLoop(g: Cfg, m: Marks, h: Cfg, m': Marks, falls: bool)
    requires Inv(g, m) && LoopReady(g, m) && Follows(g, m, h, m', falls)
    ensures LoopReady(h, m')
  {
    hide Defined, LaidOut, LoopReady;
    ReachedOld(g, m);
    CurOld(g, m, h, m');
    LoopStays(g.nextLabel, g, m, h, m');
  }

  lemma CurOld(g: Cfg, m: Marks, h: Cfg, m': Marks)
    requires Extended(g.nextLabel, g, m, h, m') && forall l :: l in m.reached ==> l.id < g.nextLabel
    ensures h.cur in m'.reached ==> g.cur in m.reached
  {}

  // ----- straight-line statements -----

  lemma ExtendsAppends(g: Cfg, h: Cfg, ins: seq<Ins>)
    requires Extends(g, h, ins)
    ensures Appends(g, h, OpsOf(ins))
  {
    OpsOfAppend(g.code[g.cur], ins);
  }

  /** One statement appended: everything carries on. */
  lemma AppendFollows(g: Cfg, h: Cfg, m: Marks, ins: seq<Ins>, ops: seq<Op>, r: nat)
    requires Inv(g, m) && !g.exited && !h.exited && Extends(g, h, ins) && OpsOf(ins) == ops
    requires Tidy(ops, Defined(g, m.entry), g.nextReg, r)
    ensures Inv(h, m) && Follows(g, m, h, m, true) && Defined(h, m.entry) == Defined(g, m.entry) + Defs(ops)
    ensures Log(h) == Log(g) + ins
  {
    hide Covered, Marked, LaidOut, Forward, UsesOk, Ascends, Defined, Log;
    LogGrows(g, h, m.pending, ins);
    ExtendsAppends(g, h, ins);
    OpenTargets(ops);
    AppendInv(g, h, ops, m);
  }

  lemma ActionInv(a: Action, ls: Locals, b: Builder, m: Marks)
    requires Begins(b.cfg, m, ls)
    ensures var h := LowerAction(a, ls, b).cfg;
            Begins(h, m, ActionLocals(a, ls, b)) && Follows(b.cfg, m, h, m, true) &&
            Log(h) == Log(b.cfg) + ActionIns(a, ls, b)
  {
    hide Log, LowerAction, Tidy, Inv, LoopReady, Defined, Grows, Follows;
    var g, h, c := b.cfg, LowerAction(a, ls, b).cfg, ActionCode(a, ls, b.cfg.nextReg);
    InvSane(g, m);
    LowerActionShape(a, ls, b);
    ActionTidy(a, ls, g.nextReg, Defined(g, m.entry));
    OpsOfWithLoc(c.ops, ActionLoc(a, b));
    AppendFollows(g, h, m, WithLoc(c.ops, ActionLoc(a, b)), c.ops, c.next);
    FollowsLoop(g, m, h, m, true);
    ActionScopeOk(a, ls, b, Defined(g, m.entry), Defined(h, m.entry));
  }

  lemma InvSane(g: Cfg, m: Marks)
    requires Inv(g, m)
    ensures Sane(g) && g.cur in g.code
  {}

  lemma ActionScopeOk(a: Action, ls: Locals, b: Builder, before: set<nat>, after: set<nat>)
    requires ScopeOk(ls.vals, before) && CodeTidy(ActionCode(a, ls, b.cfg.nextReg), before, b.cfg.nextReg)
    requires after == before + Defs(ActionCode(a, ls, b.cfg.nextReg).ops)
    ensures ScopeOk(ActionLocals(a, ls, b).vals, after)
  {
    hide Tidy, Defs;
  }

  lemma CallInv(fn: FnRef, args: seq<Expr>, ls: Locals, b: Builder, m: Marks)
    requires Begins(b.cfg, m, ls)
    ensures var h := LowerCall(fn, args, ls, b).cfg;
            Begins(h, m, CallLocals(fn, args, ls, b)) && Follows(b.cfg, m, h, m, true) &&
            Log(h) == Log(b.cfg) + CallIns(fn, args, ls, b)
  {
    hide Log, LowerCall, Tidy, Inv, LoopReady, Defined, Grows, Follows, Extends, Defs, RegsOf;
    var g, h, c := b.cfg, LowerCall(fn, args, ls, b).cfg, EmittedArgs(args, ls.vals, b.cfg.nextReg);
    var call, loc := ICall(c.next, fn.idx, c.res), Loc(CurrentLine(b), b.scope);
    InvSane(g, m);
    LowerCallShape(fn, args, ls, b);
    ArgsTidy(args, ls.vals, g.nextReg, Defined(g, m.entry));
    TidyMore(c.ops, call, Defined(g, m.entry), g.nextReg, c.next);
    OpsOfWithLoc(c.ops + [call], loc);
    AppendFollows(g, h, m, WithLoc(c.ops + [call], loc), c.ops + [call], c.next + 1);
    FollowsLoop(g, m, h, m, true);
    assert ScopeOk(CallLocals(fn, args, ls, b).vals, Defined(h, m.entry));
  }

  // ----- exits -----

  lemma ExitInv(b: Builder, text: string, ops: seq<Op>, next: nat, m: Marks)
    requires Inv(b.cfg, m) && !b.cfg.exited && next >= b.cfg.nextReg && Closed(ops) &&
             UsesOk(ops, Defined(b.cfg, m.entry))
    requires Targets(ops) <= b.cfg.code.Keys && (b.cfg.cur in m.reached ==> Targets(ops) <= m.reached)
    requires forall t :: t in Targets(ops) ==> Onward(b.cfg.order, b.cfg.cur, t)
    requires forall t :: t in Targets(ops) && t in m.entry ==> m.entry[t] <= Defined(b.cfg, m.entry)
    ensures var h := Exit(b, text, ops, next).cfg;
            Inv(h, m) && Follows(b.cfg, m, h, m, false) && h.exited && Log(h) == Log(b.cfg) + ExitIns(b, ops)
  {
    hide Covered, Marked, LaidOut, Forward, UsesOk, Closed, Defined, Targets, Log;
    var g, h, loc := b.cfg, Exit(b, text, ops, next).cfg, Loc(CurrentLine(b), b.scope);
    ExitShape(b, text, ops, next);
    LogGrows(g, h, m.pending, WithLoc(ops, loc));
    OpsOfWithLoc(ops, loc);
    OpsOfAppend(g.code[g.cur], WithLoc(ops, loc));
    AppendInv(g, h, ops, m);
  }

  lemma OneClosed(op: Op, defined: set<nat>)
    requires IsTerminator(op) && UsesOf(op) <= defined
    ensures Closed([op]) && Targets([op]) == TargetsOf(op) && UsesOk([op], defined)
  {
    assert [op][..0] == [];
    assert [op][1..] == [];
    assert Targets([op]) == TargetsOf(op) + Targets([op][1..]);
    assert UsesOk([op][1..], defined + DefOf(op));
  }

  lemma MoreClosed(ops: seq<Op>, op: Op, defined: set<nat>, r: nat, n: nat)
    requires Tidy(ops, defined, r, n) && IsTerminator(op) && UsesOf(op) <= defined + Defs(ops)
    ensures Closed(ops + [op]) && Targets(ops + [op]) == TargetsOf(op) && UsesOk(ops + [op], defined)
  {
    OneClosed(op, defined + Defs(ops));
    OpenAppend(ops, [op]);
    UsesAppend(ops, [op], defined);
    DefsAppend(ops, [op]);
    OpenTargets(ops);
  }

  lemma CurPlace(g: Cfg, pending: set<Label>)
    requires LaidOut(g, pending)
    ensures Place(g.order, g.cur) == |g.order| - 1 && g.cur in g.code
    ensures forall l :: l in pending ==> Place(g.order, l) == |g.order| && l in g.code
    ensures forall l :: l in g.order ==> Place(g.order, l) <= |g.order| - 1
  {
    PlaceIs(g.order, |g.order| - 1);
  }

  /** A branch that the insertion point may end with. */
  ghost predicate JumpOk(g: Cfg, m: Marks, t: Label) {
    t in g.code && (g.cur in m.reached ==> t in m.reached) && Onward(g.order, g.cur, t) &&
    (t in m.entry ==> m.entry[t] <= Defined(g, m.entry))
  }

  lemma LoopTargets(g: Cfg, m: Marks)
    requires Inv(g, m) && LoopReady(g, m) && g.loop.InLoop?
    ensures JumpOk(g, m, g.loop.continueBlock) && JumpOk(g, m, g.loop.breakBlock)
  {
    hide Defined, Covered, Marked, Forward, Sane, Targets;
    CurPlace(g, m.pending);
  }

  lemma JumpInv(b: Builder, text: string, t: Label, m: Marks)
    requires Inv(b.cfg, m) && !b.cfg.exited && JumpOk(b.cfg, m, t)
    ensures var h := Exit(b, text, [IBr(t)], b.cfg.nextReg).cfg;
            Inv(h, m) && Follows(b.cfg, m, h, m, false) && h.exited && Log(h) == Log(b.cfg) + ExitIns(b, [IBr(t)])
  {
    hide Inv, Defined, Onward, Exit, Log, Follows, ExitIns;
    OneClosed(IBr(t), Defined(b.cfg, m.entry));
    ExitInv(b, text, [IBr(t)], b.cfg.nextReg, m);
  }

  lemma BreakInv(ls: Locals, b: Builder, m: Marks)
    requires Begins(b.cfg, m, ls) && b.cfg.loop.InLoop?
    ensures var h := LowerBreak(b).cfg; Inv(h, m) && Follows(b.cfg, m, h, m, false) && h.exited
    ensures Log(LowerBreak(b).cfg) == Log(b.cfg) + Trace(Break, ls, b)
  {
    hide Inv, LoopReady, JumpOk, Exit, Log, Follows, ExitIns, ScopeOk;
    LoopTargets(b.cfg, m);
    JumpInv(b, "break;", b.cfg.loop.breakBlock, m);
  }

  lemma ContinueInv(ls: Locals, b: Builder, m: Marks)
    requires Begins(b.cfg, m, ls) && b.cfg.loop.InLoop?
    ensures var h := LowerContinue(b).cfg; Inv(h, m) && Follows(b.cfg, m, h, m, false) && h.exited
    ensures Log(LowerContinue(b).cfg) == Log(b.cfg) + Trace(Continue, ls, b)
  {
    hide Inv, LoopReady, JumpOk, Exit, Log, Follows, ExitIns, ScopeOk;
    LoopTargets(b.cfg, m);
    JumpInv(b, "continue;", b.cfg.loop.continueBlock, m);
  }

  lemma ReturnInv(e: Expr, ls: Locals, b: Builder, m: Marks)
    requires Begins(b.cfg, m, ls)
    ensures var h := LowerReturn(e, ls, b).cfg; Inv(h, m) && Follows(b.cfg, m, h, m, false) && h.exited
    ensures Log(LowerReturn(e, ls, b).cfg) == Log(b.cfg) + Trace(Return(e), ls, b)
  {
    hide Log, Inv, Defined, LoopReady, Closed, Follows, ExitIns, Exit, Tidy, Targets, Defs, UsesOk;
    var c := Emitted(e, ls.vals, b.cfg.nextReg);
    EmittedNext(e, ls.vals, b.cfg.nextReg);
    EmittedTidy(e, ls.vals, b.cfg.nextReg, Defined(b.cfg, m.entry));
    MoreClosed(c.ops, IRet(Some(c.res)), Defined(b.cfg, m.entry), b.cfg.nextReg, c.next);
    ExitInv(b, "return " + Show(e, ls.vals) + ";", c.ops + [IRet(Some(c.res))], c.next, m);
  }

  lemma ReturnVoidInv(ls: Locals, b: Builder, m: Marks)
    requires Begins(b.cfg, m, ls)
    ensures var h := LowerReturnVoid(b).cfg; Inv(h, m) && Follows(b.cfg, m, h, m, false) && h.exited
    ensures Log(LowerReturnVoid(b).cfg) == Log(b.cfg) + Trace(ReturnVoid, ls, b)
  {
    hide Log, Inv, Defined, LoopReady, Closed, Follows;
    OneClosed(IRet(None), Defined(b.cfg, m.entry));
    ExitInv(b, "return;", [IRet(None)], b.cfg.nextReg, m);
  }

  // ----- branching statements -----

  /** Somewhere inside a branching statement that started at (b, m): its blocks `waiting` are created
      but not yet listed, and on entry to each the registers defined at the start are. */
  ghost predicate Stage(b: Cfg, m: Marks, waiting: set<Label>, g: Cfg, k: Marks) {
    Extended(b.nextLabel, b, m, g, k) && k.pending == m.pending + waiting &&
    (forall x :: x in waiting ==>
       b.nextLabel <= x.id < g.nextLabel && x in k.entry && k.entry[x] == Defined(b, m.entry)) &&
    Defined(b, m.entry) <= Defined(g, k.entry)
  }

  lemma BranchHop(g: Cfg, h: Cfg, ins: seq<Ins>, made: set<Label>, l: Label)
    requires Branches(g, h, ins, made) && Sane(g) && !g.exited && h.cur == l && h.order == g.order + [l]
    ensures Hops(g, h, OpsOf(ins), made, l)
  {
    OpsOfAppend(g.code[g.cur], ins);
  }

  lemma MoveHop(g: Cfg, h: Cfg, ins: seq<Ins>, l: Label)
    requires Moves(g, h, ins, l)
    ensures Hops(g, h, OpsOf(ins), {}, l)
  {
    OpsOfAppend(g.code[g.cur], ins);
  }

  /** The test that opens a branching statement, and its first block. */
  lemma OpenInv(g: Cfg, h: Cfg, ins: seq<Ins>, ops: seq<Op>, made: set<Label>, l: Label, m: Marks) returns (k: Marks)
    requires Inv(g, m) && !g.exited && Branches(g, h, ins, made) && OpsOf(ins) == ops && l in made
    requires h.cur == l && h.order == g.order + [l]
    requires Closed(ops) && UsesOk(ops, Defined(g, m.entry)) && Targets(ops) <= made
    ensures Inv(h, k) && Stage(g, m, made - {l}, h, k) && !h.exited && Defined(h, k.entry) == Defined(g, m.entry)
    ensures k.entry.Keys == m.entry.Keys + made && k.entry[l] == Defined(g, m.entry)
    ensures forall x :: x in made ==> (x in k.reached <==> g.cur in m.reached && x in Targets(ops))
    ensures Log(h) == Log(g) + ins
  {
    hide Covered, Marked, LaidOut, Forward, UsesOk, Closed, Defined, Targets, Branches, Log;
    BranchLog(g, h, ins, made, l, m.pending);
    BranchFacts(g, h, ins, made, l);
    ReachedOld(g, m);
    PendingOld(g, m);
    k := Hopped(g, ops, made, l, m);
    HopInv(g, h, ops, made, l, m);
  }

  lemma BranchFacts(g: Cfg, h: Cfg, ins: seq<Ins>, made: set<Label>, l: Label)
    requires Branches(g, h, ins, made) && Sane(g) && !g.exited && h.cur == l && h.order == g.order + [l]
    ensures Hops(g, h, OpsOf(ins), made, l) && !h.exited && g.nextLabel <= h.nextLabel
    ensures forall x :: x in made ==> g.nextLabel <= x.id < h.nextLabel && x !in g.code
  {
    BranchHop(g, h, ins, made, l);
  }

  lemma BranchLog(g: Cfg, h: Cfg, ins: seq<Ins>, made: set<Label>, l: Label, pending: set<Label>)
    requires Branches(g, h, ins, made) && LaidOut(g, pending) && l in made && h.cur == l && h.order == g.order + [l]
    ensures Log(h) == Log(g) + ins
  {
    hide LaidOut, Log;
    LogGrows(g, h, pending, ins);
  }

  lemma PendingOld(g: Cfg, m: Marks)
    requires Inv(g, m)
    ensures m.pending <= g.code.Keys && m.entry.Keys == g.code.Keys && m.reached <= g.code.Keys
    ensures forall l :: l in g.code ==> l.id < g.nextLabel
  {}

  ghost function Landed(g: Cfg, m: Marks, l: Label, t: Label): Marks {
    Marks(m.pending - {l}, if Live(g, m) then m.reached + {t} else m.reached, m.entry)
  }

  /** Closing a block, unless it has exited, with a branch to t, and going on in block l. */
  lemma CloseInv(g: Cfg, h: Cfg, ins: seq<Ins>, m: Marks, l: Label, t: Label)
    requires Inv(g, m) && Moves(g, h, ins, l) && OpsOf(ins) == (if g.exited then [] else [IBr(t)]) && l in m.pending
    requires t in m.entry && m.entry[t] <= Defined(g, m.entry)
    requires t in m.pending || (t in g.order && Onward(g.order, g.cur, t) && (g.cur in m.reached ==> t in m.reached))
    ensures Inv(h, Landed(g, m, l, t)) && Defined(h, m.entry) == m.entry[l] && !h.exited && Log(h) == Log(g) + ins
  {
    hide Covered, Marked, LaidOut, Forward, UsesOk, Closed, Defined, Targets, Onward, Log;
    MoveLog(g, h, ins, l, m.pending);
    MoveHop(g, h, ins, l);
    NoTargets();
    NothingUsed(Defined(g, m.entry));
    OneClosed(IBr(t), Defined(g, m.entry));
    HopInv(g, h, OpsOf(ins), {}, l, m);
    assert Hopped(g, OpsOf(ins), {}, l, m).entry == m.entry;
    assert m.pending + {} - {l} == m.pending - {l};
    assert m.reached + {} == m.reached;
  }

  lemma MoveLog(g: Cfg, h: Cfg, ins: seq<Ins>, l: Label, pending: set<Label>)
    requires Moves(g, h, ins, l) && LaidOut(g, pending) && l in pending
    ensures Log(h) == Log(g) + ins
  {
    hide Log, Targets, Closed, Open;
    LogGrows(g, h, pending, ins);
  }

  lemma CloseOps(b: Builder, target: Label, parent: Scope)
    ensures OpsOf(CloseIns(b, target, parent)) == if b.cfg.exited then [] else [IBr(target)]
  {}

  // ----- stages -----

  lemma ArmStage(b: Cfg, m: Marks, waiting: set<Label>, g: Cfg, k: Marks, h: Cfg, k': Marks, falls: bool)
    requires Inv(b, m) && Stage(b, m, waiting, g, k) && Follows(g, k, h, k', falls) && b.nextLabel <= g.nextLabel
    ensures Stage(b, m, waiting, h, k')
    ensures forall x :: x in waiting ==> (x in k'.reached <==> x in k.reached)
  {
    hide Defined, Inv;
    ReachedOld(b, m);
    ExtendedLater(b.nextLabel, g.nextLabel, g, k, h, k');
    ExtendedTrans(b.nextLabel, b, m, g, k, h, k');
  }

  lemma CloseStage(b: Cfg, m: Marks, waiting: set<Label>, g: Cfg, k: Marks, h: Cfg, ins: seq<Ins>, l: Label, t: Label)
    requires Inv(b, m) && Stage(b, m, waiting, g, k) && Moves(g, h, ins, l) && l in waiting && t.id >= b.nextLabel
    requires l !in m.pending && Defined(h, k.entry) == k.entry[l]
    ensures Stage(b, m, waiting - {l}, h, Landed(g, k, l, t))
  {
    hide Defined, Inv;
    ReachedOld(b, m);
    assert k.pending - {l} == m.pending + (waiting - {l});
  }

  lemma BeginStage(b: Cfg, m: Marks, waiting: set<Label>, g: Cfg, k: Marks, ls: Locals)
    requires Begins(b, m, ls) && Stage(b, m, waiting, g, k) && Inv(g, k) && !g.exited && g.loop == b.loop
    ensures Begins(g, k, ls)
  {
    hide Defined, Inv, LoopReady;
    ReachedOld(b, m);
    CurOld(b, m, g, k);
    LoopStays(b.nextLabel, b, m, g, k);
    ScopeMono(ls.vals, Defined(b, m.entry), Defined(g, k.entry));
  }

  lemma StageFollows(b: Cfg, m: Marks, g: Cfg, k: Marks, falls: bool)
    requires Stage(b, m, {}, g, k) && g.loop == b.loop && (Live(g, k) <==> Live(b, m) && falls)
    ensures Follows(b, m, g, k, falls)
  {
    assert m.pending + {} == m.pending;
  }

  // ----- if_ -----

  lemma TestClosed(e: Expr, ls: Locals, b: Builder, yes: Label, no: Label, defined: set<nat>)
    requires ScopeOk(ls.vals, defined)
    ensures var ops := OpsOf(TestIns(e, ls, b, yes, no));
            Closed(ops) && Targets(ops) == {yes, no} && UsesOk(ops, defined)
  {
    hide Closed, Targets, UsesOk, Tidy, Defs;
    var c := Emitted(e, ls.vals, b.cfg.nextReg);
    TestOps(e, ls, b, yes, no);
    EmittedTidy(e, ls.vals, b.cfg.nextReg, defined);
    MoreClosed(c.ops, ICondBr(c.res, yes, no), defined, b.cfg.nextReg, c.next);
  }

  lemma IfHeadInv(e: Expr, ls: Locals, b: Builder, m: Marks) returns (k: Marks)
    requires Begins(b.cfg, m, ls)
    ensures var g, h := b.cfg, IfHead(e, ls, b).cfg;
            Begins(h, k, ls) && Stage(g, m, {FalseOf(b), MergeOf(b)}, h, k) && h.loop == g.loop &&
            h.nextLabel == g.nextLabel + 3 &&
            (TrueOf(b) in k.reached <==> g.cur in m.reached) && h.cur == TrueOf(b) &&
            (FalseOf(b) in k.reached <==> g.cur in m.reached) && MergeOf(b) !in k.reached &&
            Log(h) == Log(g) + TestIns(e, ls, b, TrueOf(b), FalseOf(b))
  {
    hide Log, Inv, LoopReady, Defined, Closed, Targets, UsesOk, Branches;
    var g, h, made := b.cfg, IfHead(e, ls, b).cfg, {TrueOf(b), FalseOf(b), MergeOf(b)};
    var ins := TestIns(e, ls, b, TrueOf(b), FalseOf(b));
    InvSane(g, m);
    IfHeadShape(e, ls, b);
    TestClosed(e, ls, b, TrueOf(b), FalseOf(b), Defined(g, m.entry));
    k := OpenInv(g, h, ins, OpsOf(ins), made, TrueOf(b), m);
    assert made - {TrueOf(b)} == {FalseOf(b), MergeOf(b)};
    BeginStage(g, m, {FalseOf(b), MergeOf(b)}, h, k, ls);
  }

  /** After the first arm. */
  lemma IfElseInv(b: Builder, m: Marks, b1: Builder, k1: Marks, b2: Builder, k2: Marks, falls: bool, ls: Locals)
    returns (k: Marks)
    requires Begins(b.cfg, m, ls) && Stage(b.cfg, m, {FalseOf(b), MergeOf(b)}, b1.cfg, k1) &&
             b1.cfg.nextLabel == b.cfg.nextLabel + 3
    requires (FalseOf(b) in k1.reached <==> b.cfg.cur in m.reached) && MergeOf(b) !in k1.reached
    requires Inv(b2.cfg, k2) && Follows(b1.cfg, k1, b2.cfg, k2, falls) && b1.cfg.loop == b.cfg.loop
    ensures var h := IfElse(b, b2).cfg;
            Begins(h, k, ls) && Stage(b.cfg, m, {MergeOf(b)}, h, k) && h.loop == b.cfg.loop && h.cur == FalseOf(b) &&
            (FalseOf(b) in k.reached <==> b.cfg.cur in m.reached) && (MergeOf(b) in k.reached <==> Live(b2.cfg, k2)) &&
            h.nextLabel >= b.cfg.nextLabel + 3 && Log(h) == Log(b2.cfg) + CloseIns(b2, MergeOf(b), b.scope)
  {
    hide Log, Inv, LoopReady, Defined, Closed, Targets, UsesOk, Moves, Live;
    var g, g2, h, l, t := b.cfg, b2.cfg, IfElse(b, b2).cfg, FalseOf(b), MergeOf(b);
    PendingOld(g, m);
    ArmStage(g, m, {l, t}, b1.cfg, k1, g2, k2, falls);
    WaitingClear(g2, k2, l);
    IfElseShape(b, b2);
    CloseOps(b2, t, b.scope);
    CloseInv(g2, h, CloseIns(b2, t, b.scope), k2, l, t);
    CloseStage(g, m, {l, t}, g2, k2, h, CloseIns(b2, t, b.scope), l, t);
    assert {l, t} - {l} == {t};
    k := Landed(g2, k2, l, t);
    MovesFacts(g2, h, CloseIns(b2, t, b.scope), l);
    BeginStage(g, m, {t}, h, k, ls);
  }

  lemma WaitingClear(g: Cfg, k: Marks, l: Label)
    requires Inv(g, k) && l in k.pending
    ensures l in g.code && l != g.cur && g.cur in g.code
  {}

  lemma MovesFacts(g: Cfg, h: Cfg, ins: seq<Ins>, l: Label)
    requires Moves(g, h, ins, l)
    ensures h.cur == l && h.nextLabel == g.nextLabel
  {}

  /** After the second arm. */
  lemma IfEndInv(b: Builder, m: Marks, b3: Builder, k3: Marks, b4: Builder, k4: Marks, first: bool, second: bool,
      ls: Locals) returns (k: Marks)
    requires Begins(b.cfg, m, ls) && Stage(b.cfg, m, {MergeOf(b)}, b3.cfg, k3) && b3.cfg.nextLabel >= b.cfg.nextLabel
    requires Live(b3.cfg, k3) <==> b.cfg.cur in m.reached
    requires MergeOf(b) in k3.reached <==> b.cfg.cur in m.reached && first
    requires Inv(b4.cfg, k4) && Follows(b3.cfg, k3, b4.cfg, k4, second) && b3.cfg.loop == b.cfg.loop
    ensures Begins(IfEnd(b, b4).cfg, k, ls) && Follows(b.cfg, m, IfEnd(b, b4).cfg, k, first || second)
    ensures Log(IfEnd(b, b4).cfg) == Log(b4.cfg) + CloseIns(b4, MergeOf(b), b.scope)
  {
    hide Log, Inv, LoopReady, Defined, Closed, Targets, UsesOk, Moves;
    var g, g4, h, t := b.cfg, b4.cfg, IfEnd(b, b4).cfg, MergeOf(b);
    PendingOld(g, m);
    ArmStage(g, m, {t}, b3.cfg, k3, g4, k4, second);
    WaitingClear(g4, k4, t);
    IfEndShape(b, b4);
    CloseOps(b4, t, b.scope);
    CloseInv(g4, h, CloseIns(b4, t, b.scope), k4, t, t);
    CloseStage(g, m, {t}, g4, k4, h, CloseIns(b4, t, b.scope), t, t);
    k := Landed(g4, k4, t, t);
    assert {t} - {t} == {};
    MovesFacts(g4, h, CloseIns(b4, t, b.scope), t);
    StageFollows(g, m, h, k, first || second);
    BeginStage(g, m, {}, h, k, ls);
  }

  lemma IfThenHeadInv(e: Expr, ls: Locals, b: Builder, m: Marks) returns (k: Marks)
    requires Begins(b.cfg, m, ls)
    ensures var g, h := b.cfg, IfThenHead(e, ls, b).cfg;
            Begins(h, k, ls) && Stage(g, m, {MergeOnlyOf(b)}, h, k) && h.loop == g.loop &&
            h.nextLabel == g.nextLabel + 2 &&
            (TrueOf(b) in k.reached <==> g.cur in m.reached) && h.cur == TrueOf(b) &&
            (MergeOnlyOf(b) in k.reached <==> g.cur in m.reached) &&
            Log(h) == Log(g) + TestIns(e, ls, b, TrueOf(b), MergeOnlyOf(b))
  {
    hide Log, Inv, LoopReady, Defined, Closed, Targets, UsesOk, Branches;
    var g, h, made := b.cfg, IfThenHead(e, ls, b).cfg, {TrueOf(b), MergeOnlyOf(b)};
    var ins := TestIns(e, ls, b, TrueOf(b), MergeOnlyOf(b));
    InvSane(g, m);
    IfThenHeadShape(e, ls, b);
    TestClosed(e, ls, b, TrueOf(b), MergeOnlyOf(b), Defined(g, m.entry));
    k := OpenInv(g, h, ins, OpsOf(ins), made, TrueOf(b), m);
    assert made - {TrueOf(b)} == {MergeOnlyOf(b)};
    BeginStage(g, m, {MergeOnlyOf(b)}, h, k, ls);
  }

  lemma IfThenEndInv(b: Builder, m: Marks, b1: Builder, k1: Marks, b2: Builder, k2: Marks, falls: bool, ls: Locals)
    returns (k: Marks)
    requires Begins(b.cfg, m, ls) && Stage(b.cfg, m, {MergeOnlyOf(b)}, b1.cfg, k1) &&
             b1.cfg.nextLabel == b.cfg.nextLabel + 2
    requires (MergeOnlyOf(b) in k1.reached <==> b.cfg.cur in m.reached) &&
             (Live(b1.cfg, k1) <==> b.cfg.cur in m.reached)
    requires Inv(b2.cfg, k2) && Follows(b1.cfg, k1, b2.cfg, k2, falls) && b1.cfg.loop == b.cfg.loop
    ensures Begins(IfThenEnd(b, b2).cfg, k, ls) && Follows(b.cfg, m, IfThenEnd(b, b2).cfg, k, true)
    ensures Log(IfThenEnd(b, b2).cfg) == Log(b2.cfg) + CloseIns(b2, MergeOnlyOf(b), b.scope)
  {
    hide Log, Inv, LoopReady, Defined, Closed, Targets, UsesOk, Moves;
    var g, g2, h, t := b.cfg, b2.cfg, IfThenEnd(b, b2).cfg, MergeOnlyOf(b);
    PendingOld(g, m);
    ArmStage(g, m, {t}, b1.cfg, k1, g2, k2, falls);
    WaitingClear(g2, k2, t);
    IfThenEndShape(b, b2);
    CloseOps(b2, t, b.scope);
    CloseInv(g2, h, CloseIns(b2, t, b.scope), k2, t, t);
    CloseStage(g, m, {t}, g2, k2, h, CloseIns(b2, t, b.scope), t, t);
    k := Landed(g2, k2, t, t);
    assert {t} - {t} == {};
    MovesFacts(g2, h, CloseIns(b2, t, b.scope), t);
    StageFollows(g, m, h, k, true);
    BeginStage(g, m, {}, h, k, ls);
  }

  // ----- while_ -----

  lemma {:induction false} ReadsTidy(rds: seq<Read>, ls: Locals, b: Builder, defined: set<nat>)
    requires ScopeOk(ls.vals, defined)
    ensures var (b1, ls1) := LowerReads(rds, ls, b);
            var ops := OpsOf(ReadsCode(rds, ls, b));
            Tidy(ops, defined, b.cfg.nextReg, b1.cfg.nextReg) && ScopeOk(ls1.vals, defined + Defs(ops))
    decreases |rds|
  {
    hide Tidy, Defs, OpsOf;
    if rds == [] {
      NothingTidy(defined, b.cfg.nextReg);
      assert OpsOf(ReadsCode(rds, ls, b)) == [];
      assert defined + {} == defined;
    } else {
      var c := ReadCode(rds[0], ls, b.cfg.nextReg);
      var b1, ls1 := LowerRead(rds[0], ls, b), ReadLocals(rds[0], ls, b);
      var rest := OpsOf(ReadsCode(rds[1..], ls1, b1));
      ReadTidy(rds[0], ls, b.cfg.nextReg, defined);
      ReadsCons(rds, ls, b);
      ReadsTidy(rds[1..], ls1, b1, defined + Defs(c.ops));
      TidyAppend(c.ops, rest, defined, b.cfg.nextReg, c.next, LowerReads(rds, ls, b).0.cfg.nextReg);
      assert defined + Defs(c.ops) + Defs(rest) == defined + (Defs(c.ops) + Defs(rest));
    }
  }

  lemma EntryClosed(cnd: Cond, ls: Locals, b: Builder, defined: set<nat>)
    requires ScopeOk(ls.vals, defined)
    ensures var ops := OpsOf(EntryIns(cnd, ls, b));
            Closed(ops) && Targets(ops) == {ContinueOf(b)} && UsesOk(ops, defined)
  {
    hide Closed, Targets, UsesOk, Tidy, Defs, ReadsCode, LowerReads;
    var b0 := SetLoc(b, CurrentLine(b) + 1, b.scope);
    var last := [Ins(IBr(ContinueOf(b)), LowerReads(cnd.first, ls, b0).0.cfg.loc)];
    ReadsTidy(cnd.first, ls, b0, defined);
    OpsOfAppend(ReadsCode(cnd.first, ls, b0), last);
    assert OpsOf(last) == [IBr(ContinueOf(b))];
    MoreClosed(OpsOf(ReadsCode(cnd.first, ls, b0)), IBr(ContinueOf(b)), defined, b0.cfg.nextReg,
        LowerReads(cnd.first, ls, b0).0.cfg.nextReg);
  }

  lemma HeaderClosed(cnd: Cond, ls: Locals, b: Builder, b3: Builder, defined: set<nat>)
    requires ScopeOk(ls.vals, defined)
    ensures var ops := OpsOf(HeaderIns(cnd, ls, b, b3));
            Closed(ops) && Targets(ops) == {IterationOf(b), BreakOf(b)} && UsesOk(ops, defined)
  {
    hide Closed, Targets, UsesOk, Tidy, Defs, ReadsCode, LowerReads;
    var (b4, ls4) := LowerReads(cnd.first, ls, b3);
    var rd := OpsOf(ReadsCode(cnd.first, ls, b3));
    var c := Emitted(cnd.test, ls4.vals, b4.cfg.nextReg);
    var br := ICondBr(c.res, IterationOf(b), BreakOf(b));
    ReadsTidy(cnd.first, ls, b3, defined);
    EmittedTidy(cnd.test, ls4.vals, b4.cfg.nextReg, defined + Defs(rd));
    TidyAppend(rd, c.ops, defined, b3.cfg.nextReg, b4.cfg.nextReg, c.next);
    MoreClosed(rd + c.ops, br, defined, b3.cfg.nextReg, c.next);
    OpsOfWithLoc(c.ops + [br], b4.cfg.loc);
    OpsOfAppend(ReadsCode(cnd.first, ls, b3), WithLoc(c.ops + [br], b4.cfg.loc));
    assert rd + (c.ops + [br]) == rd + c.ops + [br];
  }

  /** At the loop header, before the condition. */
  lemma WhileEntryInv(cnd: Cond, ls: Locals, b: Builder, m: Marks) returns (k: Marks)
    requires Begins(b.cfg, m, ls)
    ensures var g, h := b.cfg, WhileEntry(cnd, ls, b).cfg;
            Inv(h, k) && !h.exited && Stage(g, m, {IterationOf(b), BreakOf(b)}, h, k) && AtHeader(b, m, h, k) &&
            ScopeOk(ls.vals, Defined(h, k.entry)) && Log(h) == Log(g) + EntryIns(cnd, ls, b)
  {
    hide Log, Inv, LoopReady, Defined, Closed, Targets, UsesOk, Branches;
    var g, h, made := b.cfg, WhileEntry(cnd, ls, b).cfg, {ContinueOf(b), IterationOf(b), BreakOf(b)};
    var ins := EntryIns(cnd, ls, b);
    InvSane(g, m);
    WhileEntryShape(cnd, ls, b);
    EntryClosed(cnd, ls, b, Defined(g, m.entry));
    k := OpenInv(g, h, ins, OpsOf(ins), made, ContinueOf(b), m);
    assert made - {ContinueOf(b)} == {IterationOf(b), BreakOf(b)};
  }

  ghost predicate AtHeader(b: Builder, m: Marks, h: Cfg, k: Marks) {
    h.cur == ContinueOf(b) && h.loop == InLoop(ContinueOf(b), BreakOf(b)) && h.nextLabel == b.cfg.nextLabel + 3 &&
    (ContinueOf(b) in k.reached <==> b.cfg.cur in m.reached) && IterationOf(b) !in k.reached &&
    BreakOf(b) !in k.reached &&
    Defined(h, k.entry) == Defined(b.cfg, m.entry) &&
    ContinueOf(b) in k.entry && k.entry[ContinueOf(b)] == Defined(b.cfg, m.entry)
  }

  /** Inside the loop: its header is listed and is where its back edge may go. */
  ghost predicate AtBody(b: Builder, m: Marks, h: Cfg, k: Marks) {
    h.loop == InLoop(ContinueOf(b), BreakOf(b)) && h.nextLabel >= b.cfg.nextLabel + 3 &&
    ContinueOf(b) in h.order && IterationOf(b) in h.order &&
    Place(h.order, ContinueOf(b)) < Place(h.order, IterationOf(b)) &&
    ContinueOf(b) in k.entry && k.entry[ContinueOf(b)] == Defined(b.cfg, m.entry) &&
    (ContinueOf(b) in k.reached <==> b.cfg.cur in m.reached) && (BreakOf(b) in k.reached <==> b.cfg.cur in m.reached)
  }

  lemma WhileTestHop(cnd: Cond, ls: Locals, b: Builder, b3: Builder)
    requires Sane(b3.cfg) && IterationOf(b) in b3.cfg.code && IterationOf(b) != b3.cfg.cur && !b3.cfg.exited
    ensures Hops(b3.cfg, WhileTest(cnd, ls, b, b3).cfg, OpsOf(HeaderIns(cnd, ls, b, b3)), {}, IterationOf(b))
    ensures WhileTest(cnd, ls, b, b3).cfg.loop == b3.cfg.loop &&
            WhileTest(cnd, ls, b, b3).cfg.nextLabel == b3.cfg.nextLabel
  {
    WhileTestShape(cnd, ls, b, b3);
    OpsOfAppend(b3.cfg.code[b3.cfg.cur], HeaderIns(cnd, ls, b, b3));
  }

  /** At the start of the loop body. */
  lemma WhileTestInv(cnd: Cond, ls: Locals, b: Builder, m: Marks, b3: Builder, k3: Marks) returns (k: Marks)
    requires Begins(b.cfg, m, ls) && Inv(b3.cfg, k3) && !b3.cfg.exited && ScopeOk(ls.vals, Defined(b3.cfg, k3.entry))
    requires Stage(b.cfg, m, {IterationOf(b), BreakOf(b)}, b3.cfg, k3) && AtHeader(b, m, b3.cfg, k3)
    ensures var h := WhileTest(cnd, ls, b, b3).cfg;
            Begins(h, k, ls) && Stage(b.cfg, m, {BreakOf(b)}, h, k) && AtBody(b, m, h, k) &&
            h.nextLabel == b.cfg.nextLabel + 3 &&
            (Live(h, k) <==> b.cfg.cur in m.reached) && Log(h) == Log(b3.cfg) + HeaderIns(cnd, ls, b, b3)
  {
    hide Log, LaidOut, Forward, Marked, Covered, Sane, LoopReady, Closed, Targets, UsesOk, HopTargets, HeaderIns,
         WhileTest, Defined;
    var g, g3, h, l, x := b.cfg, b3.cfg, WhileTest(cnd, ls, b, b3).cfg, IterationOf(b), BreakOf(b);
    PendingOld(g, m);
    WaitingClear(g3, k3, l);
    InvSane(g3, k3);
    WhileTestHop(cnd, ls, b, b3);
    WhileTestLog(cnd, ls, b, b3, k3.pending);
    var ops := OpsOf(HeaderIns(cnd, ls, b, b3));
    HeaderClosed(cnd, ls, b, b3, Defined(g3, k3.entry));
    k := Hopped(g3, ops, {}, l, k3);
    HeaderTargets(g3, ops, k3, l, x);
    HopInv(g3, h, ops, {}, l, k3);
    TestStage(g, m, g3, k3, h, k, ops, l, x);
    HeaderPlace(g3, h, k3.pending, l);
    BodyReady(b, m, h, k);
    ScopeMono(ls.vals, Defined(g, m.entry), Defined(h, k.entry));
  }

  lemma WhileTestLog(cnd: Cond, ls: Locals, b: Builder, b3: Builder, pending: set<Label>)
    requires LaidOut(b3.cfg, pending) && Sane(b3.cfg) && IterationOf(b) in pending
    ensures Log(WhileTest(cnd, ls, b, b3).cfg) == Log(b3.cfg) + HeaderIns(cnd, ls, b, b3)
  {
    hide Log, HeaderIns, WhileTest, Targets, Closed, Open;
    WhileTestShape(cnd, ls, b, b3);
    LogGrows(b3.cfg, WhileTest(cnd, ls, b, b3).cfg, pending, HeaderIns(cnd, ls, b, b3));
  }

  lemma HeaderTargets(g: Cfg, ops: seq<Op>, m: Marks, l: Label, x: Label)
    requires Targets(ops) == {l, x} && l in m.pending && x in m.pending && l in m.entry && x in m.entry
    requires m.entry[l] <= Defined(g, m.entry) && m.entry[x] <= Defined(g, m.entry)
    ensures HopTargets(g, ops, {}, m)
  {}

  lemma TestStage(b: Cfg, m: Marks, g: Cfg, k: Marks, h: Cfg, k': Marks, ops: seq<Op>, l: Label, x: Label)
    requires Inv(b, m) && Stage(b, m, {l, x}, g, k) && Hops(g, h, ops, {}, l) && k' == Hopped(g, ops, {}, l, k) &&
             l != x
    requires Targets(ops) == {l, x} && l !in m.pending && Defined(h, k'.entry) == k.entry[l]
    ensures Stage(b, m, {x}, h, k') && k'.entry == k.entry
    ensures g.cur in k.reached ==> l in k'.reached && x in k'.reached
    ensures g.cur !in k.reached ==> k'.reached == k.reached
  {
    hide Defined, Inv, Targets;
    ReachedOld(b, m);
    assert k'.pending == m.pending + {x};
  }

  lemma HeaderPlace(g: Cfg, h: Cfg, pending: set<Label>, l: Label)
    requires LaidOut(g, pending) && h.order == g.order + [l] && l in pending
    ensures g.cur in h.order && l in h.order && Place(h.order, g.cur) < Place(h.order, l)
  {
    CurPlace(g, pending);
    PlaceAppend(g.order, l, g.cur);
    PlaceAppend(g.order, l, l);
  }

  lemma BodyReady(b: Builder, m: Marks, h: Cfg, k: Marks)
    requires AtBody(b, m, h, k) && Stage(b.cfg, m, {BreakOf(b)}, h, k) &&
             (h.cur in k.reached ==> b.cfg.cur in m.reached)
    ensures LoopReady(h, k)
  {
    hide Defined;
  }

  /** After the loop. */
  lemma WhileEndInv(b: Builder, m: Marks, b5: Builder, k5: Marks, b6: Builder, k6: Marks, falls: bool, ls: Locals)
    returns (k: Marks)
    requires Begins(b.cfg, m, ls) && Stage(b.cfg, m, {BreakOf(b)}, b5.cfg, k5) && AtBody(b, m, b5.cfg, k5)
    requires Inv(b5.cfg, k5) && !b5.cfg.exited && (Live(b5.cfg, k5) <==> b.cfg.cur in m.reached)
    requires Inv(b6.cfg, k6) && Follows(b5.cfg, k5, b6.cfg, k6, falls)
    ensures Begins(WhileEnd(b, b6).cfg, k, ls) && Follows(b.cfg, m, WhileEnd(b, b6).cfg, k, true)
    ensures Log(WhileEnd(b, b6).cfg) == Log(b6.cfg) + CloseIns(b6, ContinueOf(b), b.scope)
  {
    hide Log, Inv, LoopReady, Defined, Closed, Targets, UsesOk, Moves, Onward;
    var g, g6, h, x, c := b.cfg, b6.cfg, WhileEnd(b, b6).cfg, BreakOf(b), ContinueOf(b);
    PendingOld(g, m);
    ArmStage(g, m, {x}, b5.cfg, k5, g6, k6, falls);
    WaitingClear(g6, k6, x);
    WhileEndShape(b, b6);
    CloseOps(b6, c, b.scope);
    BackEdge(b, m, b5.cfg, k5, g6, k6, falls);
    CloseInv(g6, h, CloseIns(b6, c, b.scope), k6, x, c);
    CloseStage(g, m, {x}, g6, k6, h, CloseIns(b6, c, b.scope), x, c);
    k := Landed(g6, k6, x, c);
    assert {x} - {x} == {};
    MovesFacts(g6, h, CloseIns(b6, c, b.scope), x);
    StageFollows(g, m, h, k, true);
    BeginStage(g, m, {}, h, k, ls);
  }

  lemma BackEdge(b: Builder, m: Marks, g5: Cfg, k5: Marks, g6: Cfg, k6: Marks, falls: bool)
    requires Inv(b.cfg, m) && Stage(b.cfg, m, {BreakOf(b)}, g5, k5) && AtBody(b, m, g5, k5) &&
             (Live(g5, k5) <==> b.cfg.cur in m.reached)
    requires Inv(g5, k5) && !g5.exited && Inv(g6, k6) && Follows(g5, k5, g6, k6, falls)
    ensures var c := ContinueOf(b);
            c in k6.entry && k6.entry[c] == Defined(b.cfg, m.entry) <= Defined(g6, k6.entry) && c in g6.order &&
            Onward(g6.order, g6.cur, c) && (g6.cur in k6.reached ==> c in k6.reached)
  {
    hide Defined, Forward, Covered, Marked, LaidOut, Onward;
    var c, i, x := ContinueOf(b), IterationOf(b), BreakOf(b);
    assert x in k6.pending;
    BackPlace(g5.order, g6, k6.pending, c, i, x);
    ReachedOld(g5, k5);
    CurOld(g5, k5, g6, k6);
  }

  lemma BackPlace(order: seq<Label>, g: Cfg, pending: set<Label>, c: Label, i: Label, x: Label)
    requires order <= g.order && LaidOut(g, pending) && c in order && i in order && Place(order, c) < Place(order, i) &&
             x in pending
    requires c.kind == WhileContinue && HeadOf(c) == i && ExitOf(c) == x
    ensures Onward(g.order, g.cur, c)
  {
    hide LaidOut;
    PlacePrefix(order, g.order, c);
    PlacePrefix(order, g.order, i);
    CurPlace(g, pending);
  }

  // ----- every lambda -----

  /** The induction. */
  lemma {:induction false} LowerInv(c: Code, ls: Locals, b: Builder, m: Marks) returns (m': Marks)
    requires Begins(b.cfg, m, ls) && LoopOk(c, b.cfg.loop.InLoop?)
    ensures var h := Lower(c, ls, b).cfg;
            Inv(h, m') && Follows(b.cfg, m, h, m', FallsThrough(c)) && h.exited == EndsInExit(c) &&
            Log(h) == Log(b.cfg) + Trace(c, ls, b)
    decreases c, 2
  {
    hide Log, Inv, Begins, Follows, LowerBreak, LowerContinue, LowerReturn, LowerReturnVoid, LowerIf, LowerIfThen,
         LowerWhile, TraceIf, TraceIfThen, TraceWhile, LowerAct, TraceAct, LowerCallThen, TraceCall;
    m' := m;
    match c
    case Done => DoneInv(ls, b, m);
    case Break => BreakInv(ls, b, m);
    case Continue => ContinueInv(ls, b, m);
    case Return(e) => ReturnInv(e, ls, b, m);
    case ReturnVoid => ReturnVoidInv(ls, b, m);
    case Act(a, next) => m' := ActInv(a, next, ls, b, m);
    case Call(fn, args, next) => m' := CallThenInv(fn, args, next, ls, b, m);
    case If(e, t, f, next) => m' := IfInv(e, t, f, next, ls, b, m);
    case IfThen(e, t, next) => m' := IfThenInv(e, t, next, ls, b, m);
    case While(cnd, body, next) => m' := WhileInv(cnd, body, next, ls, b, m);
  }

  lemma {:induction false} ActInv(a: Action, next: Code, ls: Locals, b: Builder, m: Marks) returns (m': Marks)
    requires Begins(b.cfg, m, ls) && LoopOk(next, b.cfg.loop.InLoop?)
    ensures var h := LowerAct(a, next, ls, b).cfg;
            Inv(h, m') && Follows(b.cfg, m, h, m', FallsThrough(next)) && h.exited == EndsInExit(next)
    ensures Log(LowerAct(a, next, ls, b).cfg) == Log(b.cfg) + TraceAct(a, next, ls, b)
    decreases Act(a, next), 1
  {
    hide Log, Trace, Inv, Begins, Follows, Lower, LowerAction, ActionLocals, ActionIns;
    ActionInv(a, ls, b, m);
    m' := NextInv(Act(a, next), next, ActionLocals(a, ls, b), b, m, LowerAction(a, ls, b), m, true, ls);
  }

  lemma {:induction false} CallThenInv(fn: FnRef, args: seq<Expr>, next: Code, ls: Locals, b: Builder, m: Marks)
    returns (m': Marks)
    requires Begins(b.cfg, m, ls) && LoopOk(next, b.cfg.loop.InLoop?)
    ensures var h := LowerCallThen(fn, args, next, ls, b).cfg;
            Inv(h, m') && Follows(b.cfg, m, h, m', FallsThrough(next)) && h.exited == EndsInExit(next)
    ensures Log(LowerCallThen(fn, args, next, ls, b).cfg) == Log(b.cfg) + TraceCall(fn, args, next, ls, b)
    decreases Call(fn, args, next), 1
  {
    hide Log, Trace, Inv, Begins, Follows, Lower, LowerCall, CallLocals, CallIns;
    CallInv(fn, args, ls, b, m);
    m' := NextInv(Call(fn, args, next), next, CallLocals(fn, args, ls, b), b, m,
        LowerCall(fn, args, ls, b), m, true, ls);
  }

  lemma DoneInv(ls: Locals, b: Builder, m: Marks)
    requires Begins(b.cfg, m, ls)
    ensures Inv(b.cfg, m) && Follows(b.cfg, m, b.cfg, m, true) && !b.cfg.exited && Log(b.cfg) == Log(b.cfg) + []
  {
    hide Inv, LoopReady, Defined;
    InvSane(b.cfg, m);
  }

  /** A statement, then the rest of its lambda. */
  lemma {:induction false} NextInv(
      whole: Code, next: Code, ls1: Locals, b: Builder, m: Marks, b1: Builder, m1: Marks, falls: bool, ls: Locals)
        returns (m': Marks)
    requires next < whole && Begins(b.cfg, m, ls) && LoopOk(next, b.cfg.loop.InLoop?)
    requires Begins(b1.cfg, m1, ls1) && Follows(b.cfg, m, b1.cfg, m1, falls)
    ensures var h := Lower(next, ls1, b1).cfg;
            Inv(h, m') && Follows(b.cfg, m, h, m', falls && FallsThrough(next)) && h.exited == EndsInExit(next) &&
            Log(h) == Log(b1.cfg) + Trace(next, ls1, b1)
    decreases whole, 0
  {
    hide Log, Inv, LoopReady, Defined, Extended, Live, Lower;
    m' := LowerInv(next, ls1, b1, m1);
    FollowsTrans(b.cfg, m, b1.cfg, m1, Lower(next, ls1, b1).cfg, m', falls, FallsThrough(next));
  }

  lemma {:induction false} IfInv(e: Expr, t: Code, f: Code, next: Code, ls: Locals, b: Builder, m: Marks)
    returns (m': Marks)
    requires Begins(b.cfg, m, ls) && LoopOk(If(e, t, f, next), b.cfg.loop.InLoop?)
    ensures var h := LowerIf(e, t, f, next, ls, b).cfg;
            Inv(h, m') && Follows(b.cfg, m, h, m', (FallsThrough(t) || FallsThrough(f)) && FallsThrough(next)) &&
            h.exited == EndsInExit(next)
    ensures Log(LowerIf(e, t, f, next, ls, b).cfg) == Log(b.cfg) + TraceIf(e, t, f, next, ls, b)
    decreases If(e, t, f, next), 1
  {
    hide Log, Trace, Inv, LoopReady, Defined, Lower, IfHead, IfElse, IfEnd, Extended, Stage, TestIns, CloseIns,
         FallsThrough, EndsInExit;
    var b1 := IfHead(e, ls, b);
    var k1 := IfHeadInv(e, ls, b, m);
    var b2 := Lower(t, ls, b1);
    var k2 := LowerInv(t, ls, b1, k1);
    var b3 := IfElse(b, b2);
    var k3 := IfElseInv(b, m, b1, k1, b2, k2, FallsThrough(t), ls);
    var b4 := Lower(f, ls, b3);
    var k4 := LowerInv(f, ls, b3, k3);
    var b5 := IfEnd(b, b4);
    var k5 := IfEndInv(b, m, b3, k3, b4, k4, FallsThrough(t), FallsThrough(f), ls);
    m' := NextInv(If(e, t, f, next), next, ls, b, m, b5, k5, FallsThrough(t) || FallsThrough(f), ls);
  }

  lemma {:induction false} IfThenInv(e: Expr, t: Code, next: Code, ls: Locals, b: Builder, m: Marks) returns (m': Marks)
    requires Begins(b.cfg, m, ls) && LoopOk(IfThen(e, t, next), b.cfg.loop.InLoop?)
    ensures var h := LowerIfThen(e, t, next, ls, b).cfg;
            Inv(h, m') && Follows(b.cfg, m, h, m', FallsThrough(next)) && h.exited == EndsInExit(next)
    ensures Log(LowerIfThen(e, t, next, ls, b).cfg) == Log(b.cfg) + TraceIfThen(e, t, next, ls, b)
    decreases IfThen(e, t, next), 1
  {
    hide Log, Trace, Inv, LoopReady, Defined, Lower, IfThenHead, IfThenEnd, Extended;
    var b1 := IfThenHead(e, ls, b);
    var k1 := IfThenHeadInv(e, ls, b, m);
    var b2 := Lower(t, ls, b1);
    var k2 := LowerInv(t, ls, b1, k1);
    var k3 := IfThenEndInv(b, m, b1, k1, b2, k2, FallsThrough(t), ls);
    m' := NextInv(IfThen(e, t, next), next, ls, b, m, IfThenEnd(b, b2), k3, true, ls);
  }

  lemma {:induction false} WhileInv(cnd: Cond, body: Code, next: Code, ls: Locals, b: Builder, m: Marks)
    returns (m': Marks)
    requires Begins(b.cfg, m, ls) && LoopOk(While(cnd, body, next), b.cfg.loop.InLoop?)
    ensures var h := LowerWhile(cnd, body, next, ls, b).cfg;
            Inv(h, m') && Follows(b.cfg, m, h, m', FallsThrough(next)) && h.exited == EndsInExit(next)
    ensures Log(LowerWhile(cnd, body, next, ls, b).cfg) == Log(b.cfg) + TraceWhile(cnd, body, next, ls, b)
    decreases While(cnd, body, next), 1
  {
    hide Log, Trace, Inv, LoopReady, Defined, Lower, WhileEntry, WhileTest, WhileEnd, Extended, Stage, AtHeader,
         EntryIns, HeaderIns, CloseIns;
    var b3 := WhileEntry(cnd, ls, b);
    var k3 := WhileEntryInv(cnd, ls, b, m);
    var b5 := WhileTest(cnd, ls, b, b3);
    var k5 := WhileTestInv(cnd, ls, b, m, b3, k3);
    var b6 := Lower(body, ls, b5);
    var k6 := LowerInv(body, ls, b5, k5);
    var k7 := WhileEndInv(b, m, b5, k5, b6, k6, FallsThrough(body), ls);
    m' := NextInv(While(cnd, body, next), next, ls, b, m, WhileEnd(b, b6), k7, true, ls);
  }
}
