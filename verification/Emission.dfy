/** Facts about everything a lambda emits, block structure aside: registers are numbered in emission
    order, branches stay within the lambda's own blocks and its loop's, calls go to older functions. */
module Emission {
  import opened Types
  import opened Source
  import opened Ir
  import opened Text
  import opened Lowering
  import opened Shapes
  import opened Growth
  import opened Flow

  /** A function_ref is only to be had once its function has been built. */
  predicate CallsOlder(c: Code, k: nat) {
    match c
    case Act(_, next) => CallsOlder(next, k)
    case Call(fn, _, next) => fn.idx < k && CallsOlder(next, k)
    case If(_, t, f, next) => CallsOlder(t, k) && CallsOlder(f, k) && CallsOlder(next, k)
    case IfThen(_, t, next) => CallsOlder(t, k) && CallsOlder(next, k)
    case While(_, body, next) => CallsOlder(body, k) && CallsOlder(next, k)
    case _ => true
  }

  function CallBound(c: Code): nat {
    match c
    case Act(_, next) => CallBound(next)
    case Call(fn, _, next) => fn.idx + 1 + CallBound(next)
    case If(_, t, f, next) => CallBound(t) + CallBound(f) + CallBound(next)
    case IfThen(_, t, next) => CallBound(t) + CallBound(next)
    case While(_, body, next) => CallBound(body) + CallBound(next)
    case _ => 0
  }

  lemma {:induction false} SomeBound(c: Code, k: nat)
    requires CallBound(c) <= k
    ensures CallsOlder(c, k)
    decreases c
  {
    match c
    case Act(_, next) => SomeBound(next, k);
    case Call(_, _, next) => SomeBound(next, k);
    case If(_, t, f, next) => SomeBound(t, k); SomeBound(f, k); SomeBound(next, k);
    case IfThen(_, t, next) => SomeBound(t, k); SomeBound(next, k);
    case While(_, body, next) => SomeBound(body, k); SomeBound(next, k);
    case _ =>
  }

  /** Blocks a lambda may branch to: those numbered from lo up to hi, and its loop's. */
  ghost predicate Within(ts: set<Label>, lo: nat, hi: nat, loop: Loop) {
    lo <= hi &&
    forall t :: t in ts ==>
      lo <= t.id < hi || (loop.InLoop? && (t == loop.continueBlock || t == loop.breakBlock))
  }

  ghost predicate Below(fns: set<nat>, k: nat) { forall j :: j in fns ==> j < k }

  // ----- debug lines -----

  function LineAt(loc: DebugLoc): nat { if loc.Loc? then loc.line else 0 }

  /** The line new instructions get. */
  function LineOf(b: Builder): nat { LineAt(b.cfg.loc) }

  predicate UpTo(ins: seq<Ins>, n: nat) { forall i :: 0 <= i < |ins| ==> LineAt(ins[i].loc) <= n }

  /** Debug lines never move backwards. */
  predicate Sorted(ins: seq<Ins>) { forall i, j :: 0 <= i < j < |ins| ==> LineAt(ins[i].loc) <= LineAt(ins[j].loc) }

  predicate Climbs(ins: seq<Ins>, x: nat, y: nat) {
    x <= y && Sorted(ins) && forall i :: 0 <= i < |ins| ==> x <= LineAt(ins[i].loc) <= y
  }

  /** Reads that keep the debug line from moving backwards: no load that prints its line comes after
      a get that has already been given the line of the loop header. */
  predicate OrderlyReads(rds: seq<Read>, vars: nat) {
    rds == [] || rds[0].RLoad? ||
    (if rds[0].x < vars then forall i :: 0 <= i < |rds| ==> rds[i].RGet? else OrderlyReads(rds[1..], vars))
  }

  /** Every loop condition of c is orderly, `vars` variables being in scope. */
  predicate Orderly(c: Code, vars: nat) {
    match c
    case Act(a, next) => Orderly(next, if a.Declare? then vars + 1 else vars)
    case Call(_, _, next) => Orderly(next, vars)
    case If(_, t, f, next) => Orderly(t, vars) && Orderly(f, vars) && Orderly(next, vars)
    case IfThen(_, t, next) => Orderly(t, vars) && Orderly(next, vars)
    case While(cnd, body, next) => OrderlyReads(cnd.first, vars) && Orderly(body, vars) && Orderly(next, vars)
    case _ => true
  }

  /** Lines of the instructions emitted between b and h: at most one past the last line printed and,
      if the conditions are orderly, in order. */
  ghost predicate Lined(ins: seq<Ins>, b: Builder, h: Builder, ok: bool) {
    LineOf(b) <= CurrentLine(b) ==>
      LineOf(h) <= CurrentLine(h) && CurrentLine(b) <= CurrentLine(h) && UpTo(ins, CurrentLine(h)) &&
      (ok ==> Climbs(ins, LineOf(b), LineOf(h)))
  }

  lemma ClimbsAppend(xs: seq<Ins>, ys: seq<Ins>, x: nat, y: nat, z: nat)
    requires Climbs(xs, x, y) && Climbs(ys, y, z)
    ensures Climbs(xs + ys, x, z)
  {}

  lemma LinedAppend(xs: seq<Ins>, ys: seq<Ins>, b: Builder, m: Builder, h: Builder, ok: bool)
    requires Lined(xs, b, m, ok) && Lined(ys, m, h, ok)
    ensures Lined(xs + ys, b, h, ok)
  {
    hide Climbs;
    if LineOf(b) <= CurrentLine(b) && ok {
      ClimbsAppend(xs, ys, LineOf(b), LineOf(m), LineOf(h));
    }
  }

  /** Instructions that all have one line. */
  predicate AllAt(ins: seq<Ins>, line: nat) { forall i :: 0 <= i < |ins| ==> LineAt(ins[i].loc) == line }

  lemma LinedAt(ins: seq<Ins>, b: Builder, h: Builder, ok: bool)
    requires AllAt(ins, LineOf(h)) && LineOf(b) <= LineOf(h) <= CurrentLine(h) && CurrentLine(b) <= CurrentLine(h)
    ensures Lined(ins, b, h, ok)
  {}

  // ----- both -----

  /** `ins` takes the builder from b to h as far as numbers go: registers in order, branches to labels
      from lo up or the loop's, calls to functions before k, debug lines as above. */
  ghost predicate Emits(ins: seq<Ins>, b: Builder, h: Builder, lo: nat, loop: Loop, k: nat, ok: bool) {
    Numbered(ins, b.cfg, h.cfg, lo, loop, k) && Lined(ins, b, h, ok)
  }

  ghost predicate Numbered(ins: seq<Ins>, g: Cfg, h: Cfg, lo: nat, loop: Loop, k: nat) {
    Ascends(OpsOf(ins), g.nextReg, h.nextReg) && Within(Targets(OpsOf(ins)), lo, h.nextLabel, loop) &&
    Below(Callees(OpsOf(ins)), k) && g.nextLabel <= h.nextLabel
  }

  lemma NumberedAppend(xs: seq<Ins>, ys: seq<Ins>, g: Cfg, m: Cfg, h: Cfg, lo: nat, lo': nat, loop: Loop, k: nat)
    requires Numbered(xs, g, m, lo, loop, k) && Numbered(ys, m, h, lo', loop, k) && lo <= lo'
    ensures Numbered(xs + ys, g, h, lo, loop, k)
  {
    hide Ascends;
    OpsOfAppend(xs, ys);
    DefsAppend(OpsOf(xs), OpsOf(ys));
    AscendsAppend(OpsOf(xs), OpsOf(ys), g.nextReg, m.nextReg, h.nextReg);
  }

  lemma EmitsAppend(xs: seq<Ins>, ys: seq<Ins>, b: Builder, m: Builder, h: Builder, lo: nat, lo': nat, loop: Loop,
      k: nat, ok: bool)
    requires Emits(xs, b, m, lo, loop, k, ok) && Emits(ys, m, h, lo', loop, k, ok) && lo <= lo'
    ensures Emits(xs + ys, b, h, lo, loop, k, ok)
  {
    hide Numbered, Lined;
    NumberedAppend(xs, ys, b.cfg, m.cfg, h.cfg, lo, lo', loop, k);
    LinedAppend(xs, ys, b, m, h, ok);
  }

  lemma EmitsFour(x0: seq<Ins>, x1: seq<Ins>, x2: seq<Ins>, x3: seq<Ins>,
                  b0: Builder, b1: Builder, b2: Builder, b3: Builder, b4: Builder,
                  lo: nat, lo1: nat, lo2: nat, lo3: nat, loop: Loop, k: nat, ok: bool)
    requires Emits(x0, b0, b1, lo, loop, k, ok) && Emits(x1, b1, b2, lo1, loop, k, ok) &&
             Emits(x2, b2, b3, lo2, loop, k, ok)
    requires Emits(x3, b3, b4, lo3, loop, k, ok) && lo <= lo1 && lo <= lo2 && lo <= lo3
    ensures Emits(x0 + x1 + x2 + x3, b0, b4, lo, loop, k, ok)
  {
    hide Emits;
    EmitsAppend(x0, x1, b0, b1, b2, lo, lo1, loop, k, ok);
    EmitsAppend(x0 + x1, x2, b0, b2, b3, lo, lo2, loop, k, ok);
    EmitsAppend(x0 + x1 + x2, x3, b0, b3, b4, lo, lo3, loop, k, ok);
  }

  /** A loop's blocks belong to the statement that made it. */
  lemma EmitsOutside(ins: seq<Ins>, b: Builder, h: Builder, lo: nat, inner: Loop, lo': nat, loop: Loop, k: nat,
      ok: bool)
    requires Emits(ins, b, h, lo, inner, k, ok) && inner.InLoop? && lo' <= lo
    requires lo' <= inner.continueBlock.id < b.cfg.nextLabel && lo' <= inner.breakBlock.id < b.cfg.nextLabel
    ensures Emits(ins, b, h, lo', loop, k, ok)
  {
    hide Lined;
  }

  // ----- the pieces -----

  function ScopeRegs(vals: seq<Value>): set<nat> {
    if vals == [] then {} else RegOf(vals[0].op) + ScopeRegs(vals[1..])
  }

  lemma {:induction false} ScopeCovered(vals: seq<Value>, i: nat)
    requires i < |vals|
    ensures RegOf(vals[i].op) <= ScopeRegs(vals)
    decreases |vals|
  {
    if i > 0 {
      ScopeCovered(vals[1..], i - 1);
    }
  }

  lemma ScopeAll(vals: seq<Value>)
    ensures ScopeOk(vals, ScopeRegs(vals))
  {
    forall i | 0 <= i < |vals|
      ensures RegOf(vals[i].op) <= ScopeRegs(vals)
    {
      ScopeCovered(vals, i);
    }
  }

  lemma StraightEmits(ops: seq<Op>, loc: DebugLoc, b: Builder, h: Builder, lo: nat, loop: Loop, k: nat, ok: bool)
    requires Ascends(ops, b.cfg.nextReg, h.cfg.nextReg) && Open(ops) && Below(Callees(ops), k)
    requires lo <= h.cfg.nextLabel && b.cfg.nextLabel <= h.cfg.nextLabel && Lined(WithLoc(ops, loc), b, h, ok)
    ensures Emits(WithLoc(ops, loc), b, h, lo, loop, k, ok)
  {
    hide Ascends, Lined;
    OpsOfWithLoc(ops, loc);
    OpenTargets(ops);
  }

  lemma CodeEmits(c: ExprCode, defined: set<nat>, loc: DebugLoc, b: Builder, h: Builder, lo: nat, loop: Loop, k: nat,
      ok: bool)
    requires CodeTidy(c, defined, b.cfg.nextReg) && h.cfg.nextReg == c.next
    requires lo <= h.cfg.nextLabel && b.cfg.nextLabel <= h.cfg.nextLabel && Lined(WithLoc(c.ops, loc), b, h, ok)
    ensures Emits(WithLoc(c.ops, loc), b, h, lo, loop, k, ok)
  {
    hide Ascends, UsesOk, Defs, Lined;
    StraightEmits(c.ops, loc, b, h, lo, loop, k, ok);
  }

  lemma NothingEmits(b: Builder, k: nat, ok: bool)
    ensures Emits([], b, b, b.cfg.nextLabel, b.cfg.loop, k, ok)
  {
    assert OpsOf([]) == [];
  }

  /** An operand's code and the terminator that uses it. */
  lemma EndEmits(ops: seq<Op>, op: Op, loc: DebugLoc, b: Builder, h: Builder, lo: nat, loop: Loop, k: nat, ok: bool)
    requires Ascends(ops, b.cfg.nextReg, h.cfg.nextReg) && Open(ops) && Callees(ops) == {}
    requires IsTerminator(op) && Within(TargetsOf(op), lo, h.cfg.nextLabel, loop)
    requires b.cfg.nextLabel <= h.cfg.nextLabel && Lined(WithLoc(ops + [op], loc), b, h, ok)
    ensures Emits(WithLoc(ops + [op], loc), b, h, lo, loop, k, ok)
  {
    hide Lined;
    assert [op][1..] == [];
    assert Ascends([op][1..], h.cfg.nextReg, h.cfg.nextReg) && Targets([op][1..]) == {} && Callees([op][1..]) == {};
    OpsOfWithLoc(ops + [op], loc);
    OpenTargets(ops);
    DefsAppend(ops, [op]);
    AscendsAppend(ops, [op], b.cfg.nextReg, h.cfg.nextReg, h.cfg.nextReg);
  }

  lemma CodeEndEmits(c: ExprCode, op: Op, defined: set<nat>, loc: DebugLoc, b: Builder, h: Builder, lo: nat, loop: Loop,
      k: nat, ok: bool)
    requires CodeTidy(c, defined, b.cfg.nextReg) && h.cfg.nextReg == c.next
    requires IsTerminator(op) && Within(TargetsOf(op), lo, h.cfg.nextLabel, loop)
    requires b.cfg.nextLabel <= h.cfg.nextLabel && Lined(WithLoc(c.ops + [op], loc), b, h, ok)
    ensures Emits(WithLoc(c.ops + [op], loc), b, h, lo, loop, k, ok)
  {
    hide Ascends, UsesOk, Defs, Lined;
    EndEmits(c.ops, op, loc, b, h, lo, loop, k, ok);
  }

  lemma JumpEmits(op: Op, loc: DebugLoc, b: Builder, h: Builder, lo: nat, loop: Loop, k: nat, ok: bool)
    requires IsTerminator(op) && Within(TargetsOf(op), lo, h.cfg.nextLabel, loop) && h.cfg.nextReg == b.cfg.nextReg
    requires b.cfg.nextLabel <= h.cfg.nextLabel && Lined([Ins(op, loc)], b, h, ok)
    ensures Emits([Ins(op, loc)], b, h, lo, loop, k, ok)
  {
    hide Lined;
    assert WithLoc([] + [op], loc) == [Ins(op, loc)];
    EndEmits([], op, loc, b, h, lo, loop, k, ok);
  }

  // ----- the fixed parts of statements -----

  lemma TestEmits(e: Expr, ls: Locals, b: Builder, yes: Label, no: Label, h: Builder, k: nat, ok: bool)
    requires b.cfg.nextLabel <= yes.id < h.cfg.nextLabel && b.cfg.nextLabel <= no.id < h.cfg.nextLabel
    requires h.cfg.nextReg == Emitted(e, ls.vals, b.cfg.nextReg).next && LineOf(h) == CurrentLine(b) &&
             CurrentLine(h) == CurrentLine(b) + 1
    ensures Emits(TestIns(e, ls, b, yes, no), b, h, b.cfg.nextLabel, b.cfg.loop, k, ok)
  {
    hide CodeTidy, Emits;
    var c := Emitted(e, ls.vals, b.cfg.nextReg);
    ScopeAll(ls.vals);
    EmittedTidy(e, ls.vals, b.cfg.nextReg, ScopeRegs(ls.vals));
    LineLined(c.ops + [ICondBr(c.res, yes, no)], b, h, ok);
    CodeEndEmits(c, ICondBr(c.res, yes, no), ScopeRegs(ls.vals), Loc(CurrentLine(b), b.scope), b, h, b.cfg.nextLabel,
        b.cfg.loop, k, ok);
  }

  /** The instructions of a statement with a line of its own. */
  lemma LineLined(ops: seq<Op>, b: Builder, h: Builder, ok: bool)
    requires LineOf(h) == CurrentLine(b) && CurrentLine(h) == CurrentLine(b) + 1
    ensures Lined(WithLoc(ops, Loc(CurrentLine(b), b.scope)), b, h, ok)
  {
    if LineOf(b) <= CurrentLine(b) {
      LinedAt(WithLoc(ops, Loc(CurrentLine(b), b.scope)), b, h, ok);
    }
  }

  lemma CloseEmits(b: Builder, target: Label, parent: Scope, h: Builder, lo: nat, loop: Loop, k: nat, ok: bool)
    requires lo <= target.id < b.cfg.nextLabel && SameNumbers(b.cfg, h.cfg)
    requires CurrentLine(h) == CurrentLine(b) + 1 && LineOf(h) == if b.cfg.exited then LineOf(b) else CurrentLine(b)
    ensures Emits(CloseIns(b, target, parent), b, h, lo, loop, k, ok)
  {
    if b.cfg.exited {
      assert OpsOf([]) == [];
    } else {
      JumpEmits(IBr(target), Loc(CurrentLine(b), parent), b, h, lo, loop, k, ok);
    }
  }

  ghost predicate SameNumbers(g: Cfg, h: Cfg) { h.nextReg == g.nextReg && h.nextLabel == g.nextLabel }

  lemma ReadEmits(rd: Read, ls: Locals, b: Builder, lo: nat, loop: Loop, k: nat, ok: bool)
    requires lo <= b.cfg.nextLabel
    ensures Emits(WithLoc(ReadCode(rd, ls, b.cfg.nextReg).ops, ReadLoc(rd, b)), b,
            LowerRead(rd, ls, b), lo, loop, k, ok)
    ensures CurrentLine(LowerRead(rd, ls, b)) >= CurrentLine(b)
  {
    hide CodeTidy, Emits, ReadCode;
    var c, h := ReadCode(rd, ls, b.cfg.nextReg), LowerRead(rd, ls, b);
    ScopeAll(ls.vals);
    ReadTidy(rd, ls, b.cfg.nextReg, ScopeRegs(ls.vals));
    assert Lined(WithLoc(c.ops, ReadLoc(rd, b)), b, h, ok) by {
      if rd.RLoad? {
        LineLined(c.ops, b, h, ok);
      } else {
        assert AllAt(WithLoc(c.ops, ReadLoc(rd, b)), LineOf(h));
        if LineOf(b) <= CurrentLine(b) {
          LinedAt(WithLoc(c.ops, ReadLoc(rd, b)), b, h, ok);
        }
      }
    }
    CodeEmits(c, ScopeRegs(ls.vals), ReadLoc(rd, b), b, h, lo, loop, k, ok);
  }

  lemma {:induction false} ReadsEmit(rds: seq<Read>, ls: Locals, b: Builder, lo: nat, loop: Loop, k: nat, ok: bool)
    requires lo <= b.cfg.nextLabel
    ensures Emits(ReadsCode(rds, ls, b), b, LowerReads(rds, ls, b).0, lo, loop, k, ok)
    decreases |rds|
  {
    hide Emits, ReadCode;
    if rds == [] {
      NothingReads(b, lo, loop, k, ok);
    } else {
      var b1, ls1 := LowerRead(rds[0], ls, b), ReadLocals(rds[0], ls, b);
      ReadEmits(rds[0], ls, b, lo, loop, k, ok);
      ReadsEmit(rds[1..], ls1, b1, lo, loop, k, ok);
      EmitsAppend(WithLoc(ReadCode(rds[0], ls, b.cfg.nextReg).ops, ReadLoc(rds[0], b)), ReadsCode(rds[1..], ls1, b1),
                  b, b1, LowerReads(rds, ls, b).0, lo, lo, loop, k, ok);
    }
  }

  lemma NothingReads(b: Builder, lo: nat, loop: Loop, k: nat, ok: bool)
    requires lo <= b.cfg.nextLabel
    ensures Emits([], b, b, lo, loop, k, ok)
  {
    assert OpsOf([]) == [];
  }

  /** The reads of a condition before the loop: their line is set to that of the header, which is not
      printed yet, so they start one line ahead. */
  lemma {:induction false} ReadsAhead(rds: seq<Read>, ls: Locals, b: Builder, x: nat)
    requires LineOf(b) == CurrentLine(b) + 1 && x <= CurrentLine(b)
    ensures var h, ins := LowerReads(rds, ls, b).0, ReadsCode(rds, ls, b);
            LineOf(h) <= CurrentLine(h) + 1 && CurrentLine(b) <= CurrentLine(h) && UpTo(ins, CurrentLine(h) + 1) &&
            (OrderlyReads(rds, |ls.vars|) ==> Climbs(ins, x, LineOf(h)))
    decreases |rds|
  {
    hide ReadCode, Climbs, Sorted;
    if rds == [] {
      NothingClimbs(x, LineOf(b));
    } else {
      var b1, ls1 := LowerRead(rds[0], ls, b), ReadLocals(rds[0], ls, b);
      var first := WithLoc(ReadCode(rds[0], ls, b.cfg.nextReg).ops, ReadLoc(rds[0], b));
      if rds[0].RLoad? {
        ReadsEmit(rds[1..], ls1, b1, 0, NoLoop, 0, true);
        OneLine(first, CurrentLine(b), x, LineOf(b1));
        ClimbsAppend(first, ReadsCode(rds[1..], ls1, b1), x, LineOf(b1), LineOf(LowerReads(rds, ls, b).0));
      } else {
        ReadsAhead(rds[1..], ls1, b1, x);
        GetLines(rds, ls, b, x);
      }
    }
  }

  lemma NothingClimbs(x: nat, y: nat)
    requires x <= y
    ensures Climbs([], x, y)
  {}

  lemma OneLine(ins: seq<Ins>, line: nat, x: nat, y: nat)
    requires AllAt(ins, line) && x <= line <= y
    ensures Climbs(ins, x, y) && UpTo(ins, y)
  {}

  lemma GetLines(rds: seq<Read>, ls: Locals, b: Builder, x: nat)
    requires rds != [] && rds[0].RGet? && LineOf(b) == CurrentLine(b) + 1 && x <= CurrentLine(b)
    requires var h1 := LowerReads(rds[1..], ReadLocals(rds[0], ls, b), LowerRead(rds[0], ls, b)).0;
             OrderlyReads(rds[1..], |ls.vars|) ==>
               Climbs(ReadsCode(rds[1..], ReadLocals(rds[0], ls, b), LowerRead(rds[0], ls, b)), x, LineOf(h1))
    ensures OrderlyReads(rds, |ls.vars|) ==> Climbs(ReadsCode(rds, ls, b), x, LineOf(LowerReads(rds, ls, b).0))
  {
    hide Climbs, ReadsCode, ReadCode, ReadLocals, LowerRead;
    if rds[0].x < |ls.vars| {
      if forall i :: 0 <= i < |rds| ==> rds[i].RGet? {
        GetsOnly(rds, ls, b);
        OneLine(ReadsCode(rds, ls, b), LineOf(b), x, LineOf(LowerReads(rds, ls, b).0));
      }
    } else {
      GetNothing(rds, ls, b);
    }
  }

  lemma GetNothing(rds: seq<Read>, ls: Locals, b: Builder)
    requires rds != [] && rds[0].RGet? && rds[0].x >= |ls.vars|
    ensures ReadsCode(rds, ls, b) == ReadsCode(rds[1..], ReadLocals(rds[0], ls, b), LowerRead(rds[0], ls, b))
  {
    hide LowerRead, ReadLocals;
    assert WithLoc(ReadCode(rds[0], ls, b.cfg.nextReg).ops, ReadLoc(rds[0], b)) == [];
  }

  lemma {:induction false} GetsOnly(rds: seq<Read>, ls: Locals, b: Builder)
    requires forall i :: 0 <= i < |rds| ==> rds[i].RGet?
    ensures AllAt(ReadsCode(rds, ls, b), LineOf(b)) && LineOf(LowerReads(rds, ls, b).0) == LineOf(b)
    decreases |rds|
  {
    hide GetCode;
    if rds != [] {
      assert forall i :: 0 <= i < |rds[1..]| ==> rds[1..][i] == rds[i + 1];
      GetsOnly(rds[1..], ReadLocals(rds[0], ls, b), LowerRead(rds[0], ls, b));
    }
  }

  lemma EntryLined(cnd: Cond, ls: Locals, b: Builder, ok: bool)
    requires ok ==> OrderlyReads(cnd.first, |ls.vars|)
    ensures Lined(EntryIns(cnd, ls, b), b, WhileEntry(cnd, ls, b), ok)
  {
    hide ReadsCode, LowerReads, OrderlyReads, Show, Sorted;
    if LineOf(b) <= CurrentLine(b) {
      var b0 := SetLoc(b, CurrentLine(b) + 1, b.scope);
      var (b1, _) := LowerReads(cnd.first, ls, b0);
      ReadsAhead(cnd.first, ls, b0, LineOf(b));
      var last := [Ins(IBr(ContinueOf(b)), b1.cfg.loc)];
      if ok {
        OneLine(last, LineOf(b1), LineOf(b1), LineOf(b1));
        ClimbsAppend(ReadsCode(cnd.first, ls, b0), last, LineOf(b), LineOf(b1), LineOf(b1));
      }
    }
  }

  lemma EntryEmits(cnd: Cond, ls: Locals, b: Builder, k: nat, ok: bool)
    requires ok ==> OrderlyReads(cnd.first, |ls.vars|)
    ensures Emits(EntryIns(cnd, ls, b), b, WhileEntry(cnd, ls, b), b.cfg.nextLabel, b.cfg.loop, k, ok)
  {
    hide Lined, ReadsCode, LowerReads, OrderlyReads, Ascends, Show;
    var b0, h := SetLoc(b, CurrentLine(b) + 1, b.scope), WhileEntry(cnd, ls, b);
    var (b1, _) := LowerReads(cnd.first, ls, b0);
    var last := [Ins(IBr(ContinueOf(b)), b1.cfg.loc)];
    EntryLined(cnd, ls, b, ok);
    ReadsEmit(cnd.first, ls, b0, b.cfg.nextLabel, b.cfg.loop, k, false);
    ReadsLabels(cnd.first, ls, b0);
    JumpNumbered(IBr(ContinueOf(b)), b1.cfg.loc, b1.cfg, h.cfg, b.cfg.nextLabel, b.cfg.loop, k);
    NumberedAppend(ReadsCode(cnd.first, ls, b0), last, b.cfg, b1.cfg, h.cfg, b.cfg.nextLabel, b.cfg.nextLabel,
        b.cfg.loop, k);
  }

  lemma JumpNumbered(op: Op, loc: DebugLoc, g: Cfg, h: Cfg, lo: nat, loop: Loop, k: nat)
    requires IsTerminator(op) && Within(TargetsOf(op), lo, h.nextLabel, loop) && h.nextReg == g.nextReg &&
             g.nextLabel <= h.nextLabel
    ensures Numbered([Ins(op, loc)], g, h, lo, loop, k)
  {
    var ops := OpsOf([Ins(op, loc)]);
    assert ops == [op] && [op][1..] == [];
    assert Ascends([op][1..], g.nextReg, h.nextReg) && Targets([op][1..]) == {} && Callees([op][1..]) == {};
  }

  lemma {:induction false} ReadsLabels(rds: seq<Read>, ls: Locals, b: Builder)
    ensures LowerReads(rds, ls, b).0.cfg.nextLabel == b.cfg.nextLabel && LowerReads(rds, ls, b).0.cfg.loop == b.cfg.loop
    decreases |rds|
  {
    if rds != [] {
      ReadsLabels(rds[1..], ReadLocals(rds[0], ls, b), LowerRead(rds[0], ls, b));
    }
  }

  lemma LoopNumbers(cnd: Cond, ls: Locals, b: Builder)
    ensures var b3 := WhileEntry(cnd, ls, b);
            var b5 := WhileTest(cnd, ls, b, b3);
            b3.cfg.nextLabel == b5.cfg.nextLabel == b.cfg.nextLabel + 3 &&
            b3.cfg.loop == b5.cfg.loop == InLoop(ContinueOf(b), BreakOf(b))
  {
    hide ReadLocals, Show, Emitted;
    ReadsLabels(cnd.first, ls, SetLoc(b, CurrentLine(b) + 1, b.scope));
    ReadsLabels(cnd.first, ls, WhileEntry(cnd, ls, b));
  }

  lemma HeaderEmits(cnd: Cond, ls: Locals, b: Builder, b3: Builder, k: nat, ok: bool)
    requires b3.cfg.nextLabel == b.cfg.nextLabel + 3
    ensures Emits(HeaderIns(cnd, ls, b, b3), b3, WhileTest(cnd, ls, b, b3), b.cfg.nextLabel, b.cfg.loop, k, ok)
  {
    hide Emits, CodeTidy, ReadsCode, LowerReads, Lined;
    var (b4, ls4) := LowerReads(cnd.first, ls, b3);
    var c, h := Emitted(cnd.test, ls4.vals, b4.cfg.nextReg), WhileTest(cnd, ls, b, b3);
    var br := ICondBr(c.res, IterationOf(b), BreakOf(b));
    var lo, last := b.cfg.nextLabel, WithLoc(c.ops + [br], b4.cfg.loc);
    ReadsEmit(cnd.first, ls, b3, lo, b.cfg.loop, k, ok);
    ReadsLabels(cnd.first, ls, b3);
    ScopeAll(ls4.vals);
    EmittedTidy(cnd.test, ls4.vals, b4.cfg.nextReg, ScopeRegs(ls4.vals));
    HeldLine(last, b4, h, ok);
    CodeEndEmits(c, br, ScopeRegs(ls4.vals), b4.cfg.loc, b4, h, lo, b.cfg.loop, k, ok);
    EmitsAppend(ReadsCode(cnd.first, ls, b3), last, b3, b4, h, lo, lo, b.cfg.loop, k, ok);
  }

  /** Instructions under the line already in force. */
  lemma HeldLine(ins: seq<Ins>, b: Builder, h: Builder, ok: bool)
    requires AllAt(ins, LineOf(b)) && LineOf(h) == LineOf(b) && CurrentLine(h) >= CurrentLine(b)
    ensures Lined(ins, b, h, ok)
  {
    if LineOf(b) <= CurrentLine(b) {
      LinedAt(ins, b, h, ok);
    }
  }

  lemma ActionEmits(a: Action, ls: Locals, b: Builder, k: nat, ok: bool)
    ensures Emits(ActionIns(a, ls, b), b, LowerAction(a, ls, b), b.cfg.nextLabel, b.cfg.loop, k, ok)
    ensures LowerAction(a, ls, b).cfg.nextLabel == b.cfg.nextLabel && LowerAction(a, ls, b).cfg.loop == b.cfg.loop
  {
    hide Emits, CodeTidy, ActionCode, ReadCode;
    var c, h := ActionCode(a, ls, b.cfg.nextReg), LowerAction(a, ls, b);
    ScopeAll(ls.vals);
    ActionTidy(a, ls, b.cfg.nextReg, ScopeRegs(ls.vals));
    ActionLined(a, ls, b, ok);
    ActionNext(a, ls, b);
    CodeEmits(c, ScopeRegs(ls.vals), ActionLoc(a, b), b, h, b.cfg.nextLabel, b.cfg.loop, k, ok);
  }

  lemma ActionNext(a: Action, ls: Locals, b: Builder)
    ensures LowerAction(a, ls, b).cfg.nextReg == ActionCode(a, ls, b.cfg.nextReg).next
  {}

  lemma ActionLined(a: Action, ls: Locals, b: Builder, ok: bool)
    ensures Lined(ActionIns(a, ls, b), b, LowerAction(a, ls, b), ok)
  {
    hide Lined, ReadCode;
    var c, h := ActionCode(a, ls, b.cfg.nextReg), LowerAction(a, ls, b);
    if a.Declare? || (a.ReadValue? && a.rd.RGet?) {
      HeldLine(ActionIns(a, ls, b), b, h, ok);
    } else {
      LineLined(c.ops, b, h, ok);
    }
  }

  lemma CallEmits(fn: FnRef, args: seq<Expr>, ls: Locals, b: Builder, k: nat, ok: bool)
    requires fn.idx < k
    ensures Emits(CallIns(fn, args, ls, b), b, LowerCall(fn, args, ls, b), b.cfg.nextLabel, b.cfg.loop, k, ok)
  {
    hide Emits, Ascends, UsesOk, Defs, Callees, RegsOf, Lined;
    var c, h := EmittedArgs(args, ls.vals, b.cfg.nextReg), LowerCall(fn, args, ls, b);
    var call := ICall(c.next, fn.idx, c.res);
    var all := ScopeRegs(ls.vals) + RegsOf(c.res);
    ScopeAll(ls.vals);
    ScopeMono(ls.vals, ScopeRegs(ls.vals), all);
    ArgsTidy(args, ls.vals, b.cfg.nextReg, all);
    TidyMore(c.ops, call, all, b.cfg.nextReg, c.next);
    LineLined(c.ops + [call], b, h, ok);
    StraightEmits(c.ops + [call], Loc(CurrentLine(b), b.scope), b, h, b.cfg.nextLabel, b.cfg.loop, k, ok);
  }

  // ----- a whole lambda -----

  /** Each completed statement gives back the debug scope, the loop and the indent it found, and only
      ever adds lines. */
  ghost predicate Restores(b: Builder, h: Builder) {
    h.scope == b.scope && h.cfg.loop == b.cfg.loop && h.src.indent == b.src.indent && b.src.lines <= h.src.lines
  }

  lemma {:induction false} TraceEmits(c: Code, ls: Locals, b: Builder, k: nat, ok: bool)
    requires CallsOlder(c, k) && (ok ==> Orderly(c, |ls.vars|))
    ensures Emits(Trace(c, ls, b), b, Lower(c, ls, b), b.cfg.nextLabel, b.cfg.loop, k, ok) &&
            Restores(b, Lower(c, ls, b))
    decreases c, 2
  {
    hide Emits, Restores, LowerIf, LowerIfThen, LowerWhile, LowerAct, LowerCallThen, TraceIf, TraceIfThen, TraceWhile,
         TraceAct, TraceCall;
    match c
    case Done => DoneEmits(b, k, ok);
    case Break => ExitEmits(c, ls, b, k, ok);
    case Continue => ExitEmits(c, ls, b, k, ok);
    case Return(_) => ExitEmits(c, ls, b, k, ok);
    case ReturnVoid => ExitEmits(c, ls, b, k, ok);
    case Act(a, next) => ActEmits(a, next, ls, b, k, ok);
    case Call(fn, args, next) => CallThenEmits(fn, args, next, ls, b, k, ok);
    case If(e, t, f, next) => IfEmits(e, t, f, next, ls, b, k, ok);
    case IfThen(e, t, next) => IfThenEmits(e, t, next, ls, b, k, ok);
    case While(cnd, body, next) => WhileEmits(cnd, body, next, ls, b, k, ok);
  }

  lemma DoneEmits(b: Builder, k: nat, ok: bool)
    ensures Emits([], b, b, b.cfg.nextLabel, b.cfg.loop, k, ok) && Restores(b, b)
  {
    NothingEmits(b, k, ok);
  }

  lemma ExitEmits(c: Code, ls: Locals, b: Builder, k: nat, ok: bool)
    requires c.Break? || c.Continue? || c.Return? || c.ReturnVoid?
    ensures Emits(Trace(c, ls, b), b, Lower(c, ls, b), b.cfg.nextLabel, b.cfg.loop, k, ok) &&
            Restores(b, Lower(c, ls, b))
  {
    hide Emits, CodeTidy, Exit, ExitIns;
    var r, loop := b.cfg.nextReg, b.cfg.loop;
    NothingEmits(b, k, ok);
    match c
    case Return(e) =>
      var ec := Emitted(e, ls.vals, r);
      ScopeAll(ls.vals);
      EmittedTidy(e, ls.vals, r, ScopeRegs(ls.vals));
      ExitOne(ec, IRet(Some(ec.res)), "return " + Show(e, ls.vals) + ";", ScopeRegs(ls.vals), b, k, ok);
    case ReturnVoid => ExitJump(IRet(None), "return;", b, k, ok);
    case Break => if loop.InLoop? { ExitJump(IBr(loop.breakBlock), "break;", b, k, ok); }
    case Continue => if loop.InLoop? { ExitJump(IBr(loop.continueBlock), "continue;", b, k, ok); }
  }

  lemma ExitOne(c: ExprCode, op: Op, text: string, defined: set<nat>, b: Builder, k: nat, ok: bool)
    requires CodeTidy(c, defined, b.cfg.nextReg) && IsTerminator(op) &&
             Within(TargetsOf(op), b.cfg.nextLabel, b.cfg.nextLabel, b.cfg.loop)
    ensures Emits(ExitIns(b, c.ops + [op]), b, Exit(b, text, c.ops + [op], c.next), b.cfg.nextLabel, b.cfg.loop, k, ok)
    ensures Restores(b, Exit(b, text, c.ops + [op], c.next))
  {
    hide Emits, CodeTidy, Lined;
    var h := Exit(b, text, c.ops + [op], c.next);
    LineLined(c.ops + [op], b, h, ok);
    CodeEndEmits(c, op, defined, Loc(CurrentLine(b), b.scope), b, h, b.cfg.nextLabel, b.cfg.loop, k, ok);
  }

  lemma ExitJump(op: Op, text: string, b: Builder, k: nat, ok: bool)
    requires IsTerminator(op) && Within(TargetsOf(op), b.cfg.nextLabel, b.cfg.nextLabel, b.cfg.loop)
    ensures Emits(ExitIns(b, [op]), b, Exit(b, text, [op], b.cfg.nextReg), b.cfg.nextLabel, b.cfg.loop, k, ok)
    ensures Restores(b, Exit(b, text, [op], b.cfg.nextReg))
  {
    hide Emits;
    var c := ExprCode([], Const(0), b.cfg.nextReg);
    NothingTidy({}, b.cfg.nextReg);
    assert c.ops + [op] == [op];
    ExitOne(c, op, text, {}, b, k, ok);
  }

  lemma {:induction false} ActEmits(a: Action, next: Code, ls: Locals, b: Builder, k: nat, ok: bool)
    requires CallsOlder(next, k) && (ok ==> Orderly(next, if a.Declare? then |ls.vars| + 1 else |ls.vars|))
    ensures Emits(TraceAct(a, next, ls, b), b, LowerAct(a, next, ls, b), b.cfg.nextLabel, b.cfg.loop, k, ok) &&
            Restores(b, LowerAct(a, next, ls, b))
    decreases Act(a, next), 1
  {
    hide Emits, Trace, Lower, LowerAction, ActionLocals, ActionIns, Orderly;
    var ls1, b1 := ActionLocals(a, ls, b), LowerAction(a, ls, b);
    ActionEmits(a, ls, b, k, ok);
    ActionRestores(a, ls, b);
    TraceEmits(next, ls1, b1, k, ok);
    EmitsAppend(ActionIns(a, ls, b), Trace(next, ls1, b1), b, b1, Lower(next, ls1, b1), b.cfg.nextLabel,
        b1.cfg.nextLabel, b.cfg.loop, k, ok);
  }

  lemma ActionRestores(a: Action, ls: Locals, b: Builder)
    ensures Restores(b, LowerAction(a, ls, b)) && |ActionLocals(a, ls, b).vars| == if a.Declare? then |ls.vars| + 1
            else |ls.vars|
  {
    hide ActionCode, Show;
  }

  lemma {:induction false} CallThenEmits(fn: FnRef, args: seq<Expr>, next: Code, ls: Locals, b: Builder, k: nat,
      ok: bool)
    requires CallsOlder(next, k) && fn.idx < k && (ok ==> Orderly(next, |ls.vars|))
    ensures Emits(TraceCall(fn, args, next, ls, b), b, LowerCallThen(fn, args, next, ls, b), b.cfg.nextLabel,
            b.cfg.loop, k, ok) &&
            Restores(b, LowerCallThen(fn, args, next, ls, b))
    decreases Call(fn, args, next), 1
  {
    hide Emits, Trace, Lower, CallIns, EmittedArgs, ShowArgs;
    var ls1, b1 := CallLocals(fn, args, ls, b), LowerCall(fn, args, ls, b);
    CallEmits(fn, args, ls, b, k, ok);
    TraceEmits(next, ls1, b1, k, ok);
    EmitsAppend(CallIns(fn, args, ls, b), Trace(next, ls1, b1), b, b1, Lower(next, ls1, b1), b.cfg.nextLabel,
        b1.cfg.nextLabel, b.cfg.loop, k, ok);
  }

  /** What opening a branching statement does to the builder's other state. */
  ghost predicate Heads(e: Expr, ls: Locals, b: Builder, h: Builder, blocks: nat) {
    h.cfg.nextReg == Emitted(e, ls.vals, b.cfg.nextReg).next && h.cfg.nextLabel == b.cfg.nextLabel + blocks &&
    h.cfg.loop == b.cfg.loop && LineOf(h) == CurrentLine(b) && CurrentLine(h) == CurrentLine(b) + 1 &&
    h.src.indent == b.src.indent + 4 && b.src.lines <= h.src.lines
  }

  lemma HeadState(e: Expr, ls: Locals, b: Builder)
    ensures Heads(e, ls, b, IfHead(e, ls, b), 3)
  {
    hide Emitted, Show;
  }

  lemma ThenState(e: Expr, ls: Locals, b: Builder)
    ensures Heads(e, ls, b, IfThenHead(e, ls, b), 2)
  {
    hide Emitted, Show;
  }

  /** What closing one of its bodies does; `h` is the builder at the next body or after the statement. */
  ghost predicate Closes(b: Builder, b2: Builder, h: Builder) {
    SameNumbers(b2.cfg, h.cfg) && CurrentLine(h) == CurrentLine(b2) + 1 && b2.src.lines <= h.src.lines &&
    LineOf(h) == (if b2.cfg.exited then LineOf(b2) else CurrentLine(b2))
  }

  lemma CloseState(b: Builder, b2: Builder)
    requires b2.src.indent == b.src.indent + 4
    ensures Closes(b, b2, IfElse(b, b2)) && IfElse(b, b2).src.indent == b2.src.indent &&
            IfElse(b, b2).cfg.loop == b2.cfg.loop
    ensures Closes(b, b2, IfEnd(b, b2)) && IfEnd(b, b2).src.indent == b.src.indent &&
            IfEnd(b, b2).cfg.loop == b2.cfg.loop
    ensures Closes(b, b2, IfThenEnd(b, b2)) && IfThenEnd(b, b2).src.indent == b.src.indent &&
            IfThenEnd(b, b2).cfg.loop == b2.cfg.loop
    ensures Closes(b, b2, WhileEnd(b, b2)) && WhileEnd(b, b2).src.indent == b.src.indent &&
            WhileEnd(b, b2).cfg.loop == b.cfg.loop
    ensures IfEnd(b, b2).scope == b.scope && IfThenEnd(b, b2).scope == b.scope && WhileEnd(b, b2).scope == b.scope
  {}

  /** A body and the branch that closes it. */
  lemma {:induction false} ArmEmits(
      whole: Code, arm: Code, ls: Locals, b: Builder, b1: Builder, join: Label, h: Builder, lo: nat, loop: Loop, k: nat,
      ok: bool)
    requires arm < whole && CallsOlder(arm, k) && (ok ==> Orderly(arm, |ls.vars|))
    requires b1.cfg.loop == loop && lo <= join.id < b1.cfg.nextLabel && lo <= b1.cfg.nextLabel &&
             Closes(b, Lower(arm, ls, b1), h)
    ensures Emits(Trace(arm, ls, b1) + CloseIns(Lower(arm, ls, b1), join, b.scope), b1, h, lo, loop, k, ok)
    ensures Restores(b1, Lower(arm, ls, b1))
    decreases whole, 0
  {
    hide Emits, Trace, Lower, CloseIns, Orderly, CallsOlder;
    var b2 := Lower(arm, ls, b1);
    TraceEmits(arm, ls, b1, k, ok);
    GrowsLabels(Trace(arm, ls, b1), b1, b2, b1.cfg.nextLabel, loop, k, ok);
    CloseEmits(b2, join, b.scope, h, lo, loop, k, ok);
    EmitsWider(Trace(arm, ls, b1), b1, b2, b1.cfg.nextLabel, lo, loop, k, ok);
    EmitsAppend(Trace(arm, ls, b1), CloseIns(b2, join, b.scope), b1, b2, h, lo, lo, loop, k, ok);
  }

  lemma EmitsWider(ins: seq<Ins>, b: Builder, h: Builder, lo: nat, lo': nat, loop: Loop, k: nat, ok: bool)
    requires Emits(ins, b, h, lo, loop, k, ok) && lo' <= lo
    ensures Emits(ins, b, h, lo', loop, k, ok)
  {
    hide Lined;
  }

  lemma {:induction false} BodyRestores(arm: Code, ls: Locals, b1: Builder, k: nat)
    requires CallsOlder(arm, k)
    ensures Restores(b1, Lower(arm, ls, b1))
    decreases arm, 3
  {
    hide Emits;
    TraceEmits(arm, ls, b1, k, false);
  }

  lemma {:induction false} IfEmits(e: Expr, t: Code, f: Code, next: Code, ls: Locals, b: Builder, k: nat, ok: bool)
    requires CallsOlder(t, k) && CallsOlder(f, k) && CallsOlder(next, k)
    requires ok ==> Orderly(t, |ls.vars|) && Orderly(f, |ls.vars|) && Orderly(next, |ls.vars|)
    ensures Emits(TraceIf(e, t, f, next, ls, b), b, LowerIf(e, t, f, next, ls, b), b.cfg.nextLabel, b.cfg.loop, k,
            ok) &&
            Restores(b, LowerIf(e, t, f, next, ls, b))
    decreases If(e, t, f, next), 1
  {
    hide Emits, Trace, TraceIf, Lower, IfHead, IfElse, IfEnd, TestIns, CloseIns, Emitted, Orderly, CallsOlder;
    var whole, lo, loop, b1, join := If(e, t, f, next), b.cfg.nextLabel, b.cfg.loop, IfHead(e, ls, b), MergeOf(b);
    var b2 := Lower(t, ls, b1);
    var b3 := IfElse(b, b2);
    var b4 := Lower(f, ls, b3);
    var b5 := IfEnd(b, b4);
    var b6 := Lower(next, ls, b5);
    var head := TestIns(e, ls, b, TrueOf(b), FalseOf(b));
    var arm, arm2 := Trace(t, ls, b1) + CloseIns(b2, join, b.scope), Trace(f, ls, b3) + CloseIns(b4, join, b.scope);
    HeadState(e, ls, b);
    TestEmits(e, ls, b, TrueOf(b), FalseOf(b), b1, k, ok);
    BodyRestores(t, ls, b1, k);
    CloseState(b, b2);
    ArmEmits(whole, t, ls, b, b1, join, b3, lo, loop, k, ok);
    GrowsLabels(arm, b1, b3, lo, loop, k, ok);
    BodyRestores(f, ls, b3, k);
    CloseState(b, b4);
    ArmEmits(whole, f, ls, b, b3, join, b5, lo, loop, k, ok);
    GrowsLabels(arm2, b3, b5, lo, loop, k, ok);
    TraceEmits(next, ls, b5, k, ok);
    EmitsFour(head, arm, arm2, Trace(next, ls, b5), b, b1, b3, b5, b6, lo, lo, lo, b5.cfg.nextLabel, loop, k, ok);
    TraceParts(e, t, f, next, ls, b);
  }

  lemma TraceParts(e: Expr, t: Code, f: Code, next: Code, ls: Locals, b: Builder)
    ensures var b1 := IfHead(e, ls, b);
            var b2 := Lower(t, ls, b1);
            var b3 := IfElse(b, b2);
            var b4 := Lower(f, ls, b3);
            TraceIf(e, t, f, next, ls, b) ==
            TestIns(e, ls, b, TrueOf(b), FalseOf(b)) + (Trace(t, ls, b1) + CloseIns(b2, MergeOf(b), b.scope)) +
            (Trace(f, ls, b3) + CloseIns(b4, MergeOf(b), b.scope)) + Trace(next, ls, IfEnd(b, b4))
  {
    hide Trace, Lower, IfHead, IfElse, IfEnd, TestIns, CloseIns;
  }

  lemma GrowsLabels(ins: seq<Ins>, b: Builder, h: Builder, lo: nat, loop: Loop, k: nat, ok: bool)
    requires Emits(ins, b, h, lo, loop, k, ok)
    ensures b.cfg.nextLabel <= h.cfg.nextLabel
  {}

  lemma {:induction false} IfThenEmits(e: Expr, t: Code, next: Code, ls: Locals, b: Builder, k: nat, ok: bool)
    requires CallsOlder(t, k) && CallsOlder(next, k) && (ok ==> Orderly(t, |ls.vars|) && Orderly(next, |ls.vars|))
    ensures Emits(TraceIfThen(e, t, next, ls, b), b, LowerIfThen(e, t, next, ls, b), b.cfg.nextLabel, b.cfg.loop, k,
            ok) &&
            Restores(b, LowerIfThen(e, t, next, ls, b))
    decreases IfThen(e, t, next), 1
  {
    hide Emits, Trace, Lower, IfThenHead, IfThenEnd, TestIns, CloseIns, Emitted, Orderly, CallsOlder;
    var whole, lo, loop, b1, join := IfThen(e, t, next), b.cfg.nextLabel, b.cfg.loop, IfThenHead(e, ls, b),
        MergeOnlyOf(b);
    var b2 := Lower(t, ls, b1);
    var b3 := IfThenEnd(b, b2);
    var head, arm := TestIns(e, ls, b, TrueOf(b), join), Trace(t, ls, b1) + CloseIns(b2, join, b.scope);
    ThenState(e, ls, b);
    TestEmits(e, ls, b, TrueOf(b), join, b1, k, ok);
    BodyRestores(t, ls, b1, k);
    CloseState(b, b2);
    ArmEmits(whole, t, ls, b, b1, join, b3, lo, loop, k, ok);
    GrowsLabels(arm, b1, b3, lo, loop, k, ok);
    EmitsAppend(head, arm, b, b1, b3, lo, lo, loop, k, ok);
    TraceEmits(next, ls, b3, k, ok);
    EmitsAppend(head + arm, Trace(next, ls, b3), b, b3, Lower(next, ls, b3), lo, b3.cfg.nextLabel, loop, k, ok);
    assert head + arm + Trace(next, ls, b3) == TraceIfThen(e, t, next, ls, b);
  }

  lemma LoopState(cnd: Cond, ls: Locals, b: Builder)
    ensures var b3 := WhileEntry(cnd, ls, b);
            var b5 := WhileTest(cnd, ls, b, b3);
            b5.src.indent == b.src.indent + 4 && b.src.lines <= b5.src.lines
  {
    hide ReadLocals, Show, Emitted;
    ReadsLines(cnd.first, ls, SetLoc(b, CurrentLine(b) + 1, b.scope));
    ReadsLines(cnd.first, ls, WhileEntry(cnd, ls, b));
  }

  lemma {:induction false} ReadsLines(rds: seq<Read>, ls: Locals, b: Builder)
    ensures var h := LowerReads(rds, ls, b).0;
            h.src.indent == b.src.indent && b.src.lines <= h.src.lines && h.scope == b.scope
    decreases |rds|
  {
    hide ReadCode, Show;
    if rds != [] {
      ReadsLines(rds[1..], ReadLocals(rds[0], ls, b), LowerRead(rds[0], ls, b));
    }
  }

  lemma {:induction false} WhileEmits(cnd: Cond, body: Code, next: Code, ls: Locals, b: Builder, k: nat, ok: bool)
    requires CallsOlder(body, k) && CallsOlder(next, k)
    requires ok ==> OrderlyReads(cnd.first, |ls.vars|) && Orderly(body, |ls.vars|) && Orderly(next, |ls.vars|)
    ensures Emits(TraceWhile(cnd, body, next, ls, b), b, LowerWhile(cnd, body, next, ls, b), b.cfg.nextLabel,
            b.cfg.loop, k, ok) &&
            Restores(b, LowerWhile(cnd, body, next, ls, b))
    decreases While(cnd, body, next), 1
  {
    hide Emits, Trace, Lower, WhileEntry, WhileTest, WhileEnd, EntryIns, HeaderIns, CloseIns, Orderly, OrderlyReads,
         CallsOlder;
    var whole, lo, loop, b3 := While(cnd, body, next), b.cfg.nextLabel, b.cfg.loop, WhileEntry(cnd, ls, b);
    var b5 := WhileTest(cnd, ls, b, b3);
    var b6 := Lower(body, ls, b5);
    var b7 := WhileEnd(b, b6);
    var entry, header, inner := EntryIns(cnd, ls, b), HeaderIns(cnd, ls, b, b3),
        Trace(body, ls, b5) + CloseIns(b6, ContinueOf(b), b.scope);
    LoopNumbers(cnd, ls, b);
    LoopState(cnd, ls, b);
    EntryEmits(cnd, ls, b, k, ok);
    HeaderEmits(cnd, ls, b, b3, k, ok);
    BodyRestores(body, ls, b5, k);
    CloseState(b, b6);
    ArmEmits(whole, body, ls, b, b5, ContinueOf(b), b7, lo, b5.cfg.loop, k, ok);
    EmitsOutside(inner, b5, b7, lo, b5.cfg.loop, lo, loop, k, ok);
    GrowsLabels(inner, b5, b7, lo, loop, k, ok);
    TraceEmits(next, ls, b7, k, ok);
    EmitsFour(entry, header, inner, Trace(next, ls, b7), b, b3, b5, b7, Lower(next, ls, b7), lo, lo, lo,
        b7.cfg.nextLabel, loop, k, ok);
    assert entry + header + inner + Trace(next, ls, b7) == TraceWhile(cnd, body, next, ls, b);
  }
}
