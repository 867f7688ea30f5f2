/** The shapes the lowering gives to a function under construction. */
module Shapes {
  import opened Types
  import opened Source
  import opened Ir
  import opened Text
  import opened Lowering

  /** The insertion block exists and every block was numbered before nextLabel. */
  ghost predicate Sane(g: Cfg) {
    g.cur in g.code && forall l :: l in g.code ==> l.id < g.nextLabel
  }

  /** From g to h: only the insertion block of g may have got longer, new blocks have new
      numbers, registers and allocas were only added. */
  ghost predicate Grows(g: Cfg, h: Cfg) {
    g.nextLabel <= h.nextLabel && g.nextReg <= h.nextReg && g.slots <= h.slots && h.loop == g.loop &&
    (h.cur == g.cur || h.cur.id >= g.nextLabel) &&
    forall l :: l in g.code ==>
      l in h.code && (if l == g.cur then g.code[l] <= h.code[l] else h.code[l] == g.code[l])
  }

  /** A step that appends `ins` to the insertion block and changes no other block. */
  ghost predicate Extends(g: Cfg, h: Cfg, ins: seq<Ins>) {
    g.cur in g.code && h.cur == g.cur && h.code == g.code[g.cur := g.code[g.cur] + ins] &&
    h.nextLabel == g.nextLabel && h.loop == g.loop && h.exited == g.exited && h.order == g.order
  }

  function OpsOf(ins: seq<Ins>): (ops: seq<Op>)
    ensures |ops| == |ins|
  {
    seq(|ins|, i requires 0 <= i < |ins| => ins[i].op)
  }

  /** The location the instructions of an action carry. */
  function ReadLoc(rd: Read, b: Builder): DebugLoc {
    if rd.RGet? then b.cfg.loc else Loc(CurrentLine(b), b.scope)
  }

  function ActionLoc(a: Action, b: Builder): DebugLoc {
    match a
    case ReadValue(rd) => ReadLoc(rd, b)
    case Declare(_, _) => b.cfg.loc
    case _ => Loc(CurrentLine(b), b.scope)
  }

  /** The reads of a condition: one run of code appended to the insertion block. */
  function ReadsCode(rds: seq<Read>, ls: Locals, b: Builder): seq<Ins>
    decreases |rds|
  {
    if rds == [] then []
    else WithLoc(ReadCode(rds[0], ls, b.cfg.nextReg).ops, ReadLoc(rds[0], b)) +
         ReadsCode(rds[1..], ReadLocals(rds[0], ls, b), LowerRead(rds[0], ls, b))
  }

  /** The insertion block ends in `ins`, and the empty blocks `made` have been created. */
  ghost predicate Branches(g: Cfg, h: Cfg, ins: seq<Ins>, made: set<Label>) {
    h.nextReg >= g.nextReg && h.slots == g.slots && h.exited == g.exited && h.cur in made &&
    h.nextLabel > g.nextLabel &&
    (forall l :: l in made ==> g.nextLabel <= l.id < h.nextLabel && l in h.code && h.code[l] == []) &&
    (forall l :: l in h.code <==> l in g.code || l in made) &&
    (forall l :: l in g.code ==> h.code[l] == if l == g.cur then g.code[l] + ins else g.code[l])
  }

  function TestIns(e: Expr, ls: Locals, b: Builder, yes: Label, no: Label): seq<Ins> {
    var c := Emitted(e, ls.vals, b.cfg.nextReg);
    WithLoc(c.ops + [ICondBr(c.res, yes, no)], Loc(CurrentLine(b), b.scope))
  }

  /** The fall-through branch of a body, absent when the body exited. */
  function CloseIns(b: Builder, target: Label, parent: Scope): seq<Ins> {
    if b.cfg.exited then [] else [Ins(IBr(target), Loc(CurrentLine(b), parent))]
  }

  /** Closing a branch and moving to the block `l`, created earlier and still empty. */
  ghost predicate Moves(g: Cfg, h: Cfg, ins: seq<Ins>, l: Label) {
    g.cur in g.code && l in g.code && l != g.cur &&
    h.code == g.code[g.cur := g.code[g.cur] + ins] && h.cur == l && h.order == g.order + [l] && !h.exited &&
    h.nextLabel == g.nextLabel && h.nextReg == g.nextReg && h.slots == g.slots
  }

  /** What the first, discarded, generation of the condition leaves before the loop. */
  function EntryIns(cnd: Cond, ls: Locals, b: Builder): seq<Ins> {
    var b0 := SetLoc(b, CurrentLine(b) + 1, b.scope);
    ReadsCode(cnd.first, ls, b0) + [Ins(IBr(ContinueOf(b)), LowerReads(cnd.first, ls, b0).0.cfg.loc)]
  }

  /** The loop header: the condition again, this time deciding. */
  function HeaderIns(cnd: Cond, ls: Locals, b: Builder, b3: Builder): seq<Ins> {
    var (b4, ls4) := LowerReads(cnd.first, ls, b3);
    var c := Emitted(cnd.test, ls4.vals, b4.cfg.nextReg);
    ReadsCode(cnd.first, ls, b3) + WithLoc(c.ops + [ICondBr(c.res, IterationOf(b), BreakOf(b))], b4.cfg.loc)
  }

  /** From the test of a two-armed if_ to the start of its second branch. */
  ghost predicate FirstArm(b: Builder, b1: Builder, b2: Builder, b3: Builder, ins: seq<Ins>) {
    Branches(b.cfg, b1.cfg, ins, {TrueOf(b), FalseOf(b), MergeOf(b)}) && b1.cfg.cur == TrueOf(b) &&
    b1.cfg.loop == b.cfg.loop && Sane(b2.cfg) && Grows(b1.cfg, b2.cfg) &&
    Moves(b2.cfg, b3.cfg, CloseIns(b2, MergeOf(b), b.scope), FalseOf(b)) && b3.cfg.loop == b2.cfg.loop
  }

  /** From the start of the second branch to the merge block. */
  ghost predicate SecondArm(b: Builder, b3: Builder, b4: Builder, b5: Builder) {
    Sane(b3.cfg) && Grows(b.cfg, b3.cfg) && b3.cfg.cur == FalseOf(b) && b3.cfg.code[FalseOf(b)] == [] &&
    Sane(b4.cfg) && Grows(b3.cfg, b4.cfg) &&
    Moves(b4.cfg, b5.cfg, CloseIns(b4, MergeOf(b), b.scope), MergeOf(b)) &&
    Sane(b5.cfg) && Grows(b.cfg, b5.cfg) && b5.cfg.code[MergeOf(b)] == []
  }

  /** At the start of a loop's first iteration. */
  ghost predicate LoopOpened(b: Builder, b5: Builder) {
    var g, h := b.cfg, b5.cfg;
    Sane(h) && g.nextLabel + 3 == h.nextLabel && g.nextReg <= h.nextReg && g.slots == h.slots &&
    h.loop == InLoop(ContinueOf(b), BreakOf(b)) && h.cur == IterationOf(b) && h.exited == g.exited &&
    IterationOf(b) in h.code && h.code[IterationOf(b)] == [] &&
    BreakOf(b) in h.code && h.code[BreakOf(b)] == [] && ContinueOf(b) in h.code &&
    h.order == g.order + [ContinueOf(b), IterationOf(b)] &&
    forall l :: l in g.code ==> l in h.code && (if l == g.cur then g.code[l] <= h.code[l] else h.code[l] == g.code[l])
  }

  // ----- everything a lambda emits, in the order it is emitted -----

  function Trace(c: Code, ls: Locals, b: Builder): seq<Ins>
    decreases c, 1
  {
    match c
    case Done => []
    case Break => if b.cfg.loop.InLoop? then ExitIns(b, [IBr(b.cfg.loop.breakBlock)]) else []
    case Continue => if b.cfg.loop.InLoop? then ExitIns(b, [IBr(b.cfg.loop.continueBlock)]) else []
    case Return(e) =>
      var c := Emitted(e, ls.vals, b.cfg.nextReg);
      ExitIns(b, c.ops + [IRet(Some(c.res))])
    case ReturnVoid => ExitIns(b, [IRet(None)])
    case Act(a, next) => TraceAct(a, next, ls, b)
    case Call(fn, args, next) => TraceCall(fn, args, next, ls, b)
    case If(e, t, f, next) => TraceIf(e, t, f, next, ls, b)
    case IfThen(e, t, next) => TraceIfThen(e, t, next, ls, b)
    case While(cnd, body, next) => TraceWhile(cnd, body, next, ls, b)
  }

  function ExitIns(b: Builder, ops: seq<Op>): seq<Ins> { WithLoc(ops, Loc(CurrentLine(b), b.scope)) }

  function ActionIns(a: Action, ls: Locals, b: Builder): seq<Ins> {
    WithLoc(ActionCode(a, ls, b.cfg.nextReg).ops, ActionLoc(a, b))
  }

  function CallIns(fn: FnRef, args: seq<Expr>, ls: Locals, b: Builder): seq<Ins> {
    var c := EmittedArgs(args, ls.vals, b.cfg.nextReg);
    WithLoc(c.ops + [ICall(c.next, fn.idx, c.res)], Loc(CurrentLine(b), b.scope))
  }

  function TraceAct(a: Action, next: Code, ls: Locals, b: Builder): seq<Ins>
    decreases Act(a, next), 0
  {
    ActionIns(a, ls, b) + Trace(next, ActionLocals(a, ls, b), LowerAction(a, ls, b))
  }

  function TraceCall(fn: FnRef, args: seq<Expr>, next: Code, ls: Locals, b: Builder): seq<Ins>
    decreases Call(fn, args, next), 0
  {
    CallIns(fn, args, ls, b) + Trace(next, CallLocals(fn, args, ls, b), LowerCall(fn, args, ls, b))
  }

  function TraceIf(e: Expr, t: Code, f: Code, next: Code, ls: Locals, b: Builder): seq<Ins>
    decreases If(e, t, f, next), 0
  {
    var b1 := IfHead(e, ls, b);
    var b2 := Lower(t, ls, b1);
    var b3 := IfElse(b, b2);
    var b4 := Lower(f, ls, b3);
    TestIns(e, ls, b, TrueOf(b), FalseOf(b)) + Trace(t, ls, b1) + CloseIns(b2, MergeOf(b), b.scope) +
    Trace(f, ls, b3) + CloseIns(b4, MergeOf(b), b.scope) + Trace(next, ls, IfEnd(b, b4))
  }

  function TraceIfThen(e: Expr, t: Code, next: Code, ls: Locals, b: Builder): seq<Ins>
    decreases IfThen(e, t, next), 0
  {
    var b1 := IfThenHead(e, ls, b);
    var b2 := Lower(t, ls, b1);
    TestIns(e, ls, b, TrueOf(b), MergeOnlyOf(b)) + Trace(t, ls, b1) + CloseIns(b2, MergeOnlyOf(b), b.scope) +
    Trace(next, ls, IfThenEnd(b, b2))
  }

  function TraceWhile(cnd: Cond, body: Code, next: Code, ls: Locals, b: Builder): seq<Ins>
    decreases While(cnd, body, next), 0
  {
    var b3 := WhileEntry(cnd, ls, b);
    var b5 := WhileTest(cnd, ls, b, b3);
    var b6 := Lower(body, ls, b5);
    EntryIns(cnd, ls, b) + HeaderIns(cnd, ls, b, b3) + Trace(body, ls, b5) + CloseIns(b6, ContinueOf(b), b.scope) +
    Trace(next, ls, WhileEnd(b, b6))
  }

  /** The blocks' instructions in list order. */
  function Flat(order: seq<Label>, code: Blocks): seq<Ins> {
    if order == [] then []
    else
      var l := order[|order| - 1];
      Flat(order[..|order| - 1], code) + if l in code then code[l] else []
  }

  function Log(g: Cfg): seq<Ins> { Flat(g.order, g.code) }
}
