/** Every emitted instruction names, in the finished listing, the line it is said to. */
module InstructionLines {
  import opened Types
  import opened Source
  import opened Ir
  import opened Text
  import opened Lowering
  import opened Shapes
  import opened Listings
  import opened LineNames
  import opened FinalListing
  import opened OneLine
  import DebugLines
  import Emission
  import Finished

  // ----- runs of instructions -----

  lemma SameNamed(p: Page, ops: seq<Op>, loc: DebugLoc, m: Option<Mark>)
    requires Names(p, loc, m)
    ensures AllNamed(p, WithLoc(ops, loc), Same(m, |ops|))
  {}

  lemma NamedAppend(p: Page, xs: seq<Ins>, ys: seq<Ins>, ms: seq<Option<Mark>>, ns: seq<Option<Mark>>)
    requires AllNamed(p, xs, ms) && AllNamed(p, ys, ns)
    ensures AllNamed(p, xs + ys, ms + ns)
  {
    hide Names;
  }

  lemma LatestAppend(ms: seq<Option<Mark>>, ns: seq<Option<Mark>>, cur: Option<Mark>)
    ensures Latest(ms + ns, cur) == Latest(ns, Latest(ms, cur))
  {
    if ns == [] {
      assert ms + ns == ms;
    }
  }

  // ----- places in the listing -----

  lemma FitsTwice(p: Page, b: Builder, h: Builder, xs: seq<Note>, ys: seq<Note>, d: nat)
    requires AddsLines(b, h, xs, d) && Fits(p, |b.src.lines|, xs + ys)
    ensures Fits(p, |b.src.lines|, xs) && Fits(p, |h.src.lines|, ys)
  {
    var n := |b.src.lines|;
    Slices(p.notes, n, |xs|, |xs + ys|);
    assert (xs + ys)[..|xs|] == xs && (xs + ys)[|xs|..] == ys;
  }

  lemma Slices(notes: seq<Note>, n: nat, k: nat, m: nat)
    requires n + m <= |notes| && k <= m
    ensures notes[n..n + k] == notes[n..n + m][..k] && notes[n + k..n + m] == notes[n..n + m][k..]
  {}

  /** Lines no shallower than d do not change the scope of those d deep. */
  lemma {:induction false} ScopePast(p: Page, notes: seq<Note>, xs: seq<Note>, d: nat)
    requires Deep(xs, d)
    ensures ScopeAfter(p, notes + xs, d) == ScopeAfter(p, notes, d)
    decreases |xs|
  {
    if xs == [] {
      assert notes + xs == notes;
    } else {
      var n := |xs| - 1;
      assert (notes + xs)[..|notes + xs| - 1] == notes + xs[..n] && (notes + xs)[|notes + xs| - 1] == xs[n];
      ScopePast(p, notes, xs[..n], d);
    }
  }

  lemma StandsOn(p: Page, n: nat, s: Scope, d: nat, xs: seq<Note>)
    requires Stands(p, n, s, d) && Fits(p, n, xs) && Deep(xs, d)
    ensures Stands(p, n + |xs|, s, d)
  {
    assert p.notes[..n + |xs|] == p.notes[..n] + xs;
    ScopePast(p, p.notes[..n], xs, d);
  }

  /** Into a body: the line just added opens a lexical block. */
  lemma StandsIn(p: Page, n: nat, s: Scope, d: nat, x: Note)
    requires Stands(p, n, s, d) && Fits(p, n, [x]) && x.depth == d
    ensures Stands(p, n + 1, Lexical(s, n + 2), d + 1)
  {
    var notes := p.notes[..n + 1];
    assert p.notes[n] == p.notes[n..n + 1][0] == x;
    assert notes[..|notes| - 1] == p.notes[..n] && notes[|notes| - 1] == x;
  }

  /** After the last of some lines of its own depth. */
  lemma StandsInLast(p: Page, n: nat, s: Scope, d: nat, xs: seq<Note>)
    requires Stands(p, n, s, d) && Fits(p, n, xs) && xs != [] && forall i :: 0 <= i < |xs| ==> xs[i].depth == d
    ensures Stands(p, n + |xs|, Lexical(s, n + |xs| + 1), d + 1)
  {
    var k := |xs| - 1;
    Slices(p.notes, n, k, |xs|);
    assert xs[k..] == [xs[k]];
    StandsOn(p, n, s, d, xs[..k]);
    StandsIn(p, n + k, s, d, xs[k]);
  }

  /** A line just added is where its number says, in the scope its statement stands in. */
  lemma NewLine(p: Page, n: nat, x: Note, s: Scope)
    requires Stands(p, n, s, x.depth) && Fits(p, n, [x])
    ensures Names(p, Loc(n + 1, s), At(x))
  {
    assert p.notes[n] == p.notes[n..n + 1][0] == x;
  }

  // ----- what lambdas leave alone -----

  lemma {:induction false} ReadsDeep(rds: seq<Read>, ls: Locals, b: Builder, d: nat)
    ensures forall i :: 0 <= i < |ReadLines(rds, ls, b, d)| ==> ReadLines(rds, ls, b, d)[i].depth == d
    decreases |rds|
  {
    hide LineText, EraseE, LowerRead, ReadLocals;
    if rds != [] {
      ReadsDeep(rds[1..], ReadLocals(rds[0], ls, b), LowerRead(rds[0], ls, b), d);
    }
  }

  lemma IfLinesDeep(e: Expr, t: Code, f: Code, next: Code, ls: Locals, b: Builder, d: nat)
    requires var b1 := IfHead(e, ls, b);
             var b3 := IfElse(b, Lower(t, ls, b1));
             Deep(LinesOf(t, ls, b1, d + 1), d + 1) && Deep(LinesOf(f, ls, b3, d + 1), d + 1) &&
             Deep(LinesOf(next, ls, IfEnd(b, Lower(f, ls, b3)), d), d)
    ensures Deep(IfLines(e, t, f, next, ls, b, d), d)
  {
    hide LinesOf, Lower, IfHead, IfElse, IfEnd, ShowEx, EraseE;
  }

  lemma LoopDeep(cnd: Cond, body: Code, ls: Locals, b: Builder, d: nat)
    requires Deep(LinesOf(body, ls, WhileHead(cnd, ls, b), d + 1), d + 1)
    ensures Deep(LoopLines(cnd, body, ls, b, d), d)
  {
    hide LinesOf, ReadLines, WhileHead, WhileEntry, LowerReads, ShowEx, EraseE;
    ReadsDeep(cnd.first, ls, BeforeReads(b), d);
    ReadsDeep(cnd.first, ls, WhileEntry(cnd, ls, b), d);
  }

  /** A lambda's lines are no shallower than the lambda. */
  lemma {:induction false} LinesDeep(c: Code, ls: Locals, b: Builder, d: nat)
    ensures Deep(LinesOf(c, ls, b, d), d)
    decreases c, 1
  {
    hide LineText, EraseE, ShowEx, Lower, LowerAction, LowerCall, ActionLocals, CallLocals, IfHead, IfThenHead, IfElse,
         IfEnd, IfLines, LoopLines,
         IfThenEnd, WhileEnd, WhileHead, WhileEntry, ReadLines;
    match c
    case Act(a, next) => LinesDeep(next, ActionLocals(a, ls, b), LowerAction(a, ls, b), d);
    case Call(fn, args, next) => LinesDeep(next, CallLocals(fn, args, ls, b), LowerCall(fn, args, ls, b), d);
    case If(e, t, f, next) =>
      var b1 := IfHead(e, ls, b);
      var b3 := IfElse(b, Lower(t, ls, b1));
      LinesDeep(t, ls, b1, d + 1);
      LinesDeep(f, ls, b3, d + 1);
      LinesDeep(next, ls, IfEnd(b, Lower(f, ls, b3)), d);
      IfLinesDeep(e, t, f, next, ls, b, d);
    case IfThen(e, t, next) =>
      var b1 := IfThenHead(e, ls, b);
      LinesDeep(t, ls, b1, d + 1);
      LinesDeep(next, ls, IfThenEnd(b, Lower(t, ls, b1)), d);
    case While(cnd, body, next) =>
      var b5 := WhileHead(cnd, ls, b);
      LinesDeep(body, ls, b5, d + 1);
      LoopDeep(cnd, body, ls, b, d);
      LinesDeep(next, ls, WhileEnd(b, Lower(body, ls, b5)), d);
    case _ =>
  }

  // ----- statements -----

  lemma ActionLocs(a: Action, ls: Locals, b: Builder)
    ensures LowerAction(a, ls, b).cfg.loc == ActionLoc(a, b) && LowerAction(a, ls, b).scope == b.scope
    ensures !a.Declare? && !(a.ReadValue? && a.rd.RGet?) ==> |ActionCode(a, ls, b.cfg.nextReg).ops| > 0
  {
    hide Emitted, EmittedArgs, Show, TyName;
  }

  lemma ActionNamed(p: Page, a: Action, ls: Locals, b: Builder, d: nat, cur: Option<Mark>)
    requires Stands(p, |b.src.lines|, b.scope, d) && Fits(p, |b.src.lines|, Printed(ActionNote(a, ls, b, d)))
    requires Names(p, b.cfg.loc, cur)
    ensures AllNamed(p, ActionIns(a, ls, b), ActionSaid(a, ls, b, d, cur))
    ensures Names(p, LowerAction(a, ls, b).cfg.loc, Latest(ActionSaid(a, ls, b, d, cur), cur))
  {
    hide Names, Stands, Fits, LowerAction, ActionCode, LineText, EraseE;
    ActionLocs(a, ls, b);
    var ops := ActionCode(a, ls, b.cfg.nextReg).ops;
    if a.ReadValue? && a.rd.RGet? {
      SameNamed(p, ops, b.cfg.loc, cur);
    } else if a.Declare? {
      assert ops == [] by {
        DeclaresNothing(a, ls, b);
      }
      NothingNamed(p, ActionLoc(a, b), At(ActionNote(a, ls, b, d).value));
    } else {
      var n := ActionNote(a, ls, b, d).value;
      NewLine(p, |b.src.lines|, n, b.scope);
      SameNamed(p, ops, Loc(CurrentLine(b), b.scope), At(n));
    }
  }

  lemma DeclaresNothing(a: Action, ls: Locals, b: Builder)
    requires a.Declare?
    ensures ActionCode(a, ls, b.cfg.nextReg).ops == []
  {}

  lemma NothingNamed(p: Page, loc: DebugLoc, m: Option<Mark>)
    ensures AllNamed(p, WithLoc([], loc), Same(m, 0))
  {}

  /** What an action leaves to the statement after it. */
  lemma ActionPasses(p: Page, a: Action, ls: Locals, b: Builder, d: nat, rest: seq<Note>)
    requires b.src.indent == 4 * d && Stands(p, |b.src.lines|, b.scope, d)
    requires Fits(p, |b.src.lines|, Printed(ActionNote(a, ls, b, d)) + rest)
    ensures var h := LowerAction(a, ls, b);
            Fits(p, |b.src.lines|, Printed(ActionNote(a, ls, b, d))) && h.src.indent == 4 * d &&
            Fits(p, |h.src.lines|, rest) && Stands(p, |h.src.lines|, h.scope, d)
  {
    hide Stands, Fits, LowerAction, ActionCode, LineText, EraseE;
    var h, xs := LowerAction(a, ls, b), Printed(ActionNote(a, ls, b, d));
    ActionLocs(a, ls, b);
    ActionAdds(a, ls, b, d);
    FitsTwice(p, b, h, xs, rest, d);
    StandsOn(p, |b.src.lines|, b.scope, d, xs);
  }

  lemma {:induction false} ReadsNamed(p: Page, rds: seq<Read>, ls: Locals, b: Builder, d: nat, cur: Option<Mark>)
    requires b.src.indent == 4 * d && Stands(p, |b.src.lines|, b.scope, d)
    requires Fits(p, |b.src.lines|, ReadLines(rds, ls, b, d)) && Names(p, b.cfg.loc, cur)
    ensures AllNamed(p, ReadsCode(rds, ls, b), ReadsSaid(rds, ls, b, d, cur))
    ensures Names(p, LowerReads(rds, ls, b).0.cfg.loc, Latest(ReadsSaid(rds, ls, b, d, cur), cur))
    decreases |rds|
  {
    hide Names, Stands, Fits, LowerRead, ReadCode, ActionSaid, ActionNote, ReadLoc, Latest;
    if rds == [] {
      NothingNamed(p, b.cfg.loc, cur);
      assert WithLoc([], b.cfg.loc) == [] && Same(cur, 0) == [];
      NoneSaid(cur);
    } else {
      var a, ls1, b1 := ReadValue(rds[0]), ReadLocals(rds[0], ls, b), LowerRead(rds[0], ls, b);
      var first := ActionSaid(a, ls, b, d, cur);
      ActionPasses(p, a, ls, b, d, ReadLines(rds[1..], ls1, b1, d));
      ActionNamed(p, a, ls, b, d, cur);
      ReadsNamed(p, rds[1..], ls1, b1, d, Latest(first, cur));
      NamedAppend(p, ActionIns(a, ls, b), ReadsCode(rds[1..], ls1, b1), first,
          ReadsSaid(rds[1..], ls1, b1, d, Latest(first, cur)));
      LatestAppend(first, ReadsSaid(rds[1..], ls1, b1, d, Latest(first, cur)), cur);
    }
  }

  lemma NoneSaid(cur: Option<Mark>)
    ensures Latest([], cur) == cur
  {}

  /** A statement of one line, or the test of an if_. */
  lemma LineNamed(p: Page, b: Builder, ops: seq<Op>, n: Note, cur: Option<Mark>)
    requires Stands(p, |b.src.lines|, b.scope, n.depth) && Fits(p, |b.src.lines|, [n]) && |ops| > 0
    ensures AllNamed(p, WithLoc(ops, Loc(CurrentLine(b), b.scope)), Same(At(n), |ops|))
    ensures Names(p, Loc(CurrentLine(b), b.scope), Latest(Same(At(n), |ops|), cur)) &&
            Latest(Same(At(n), |ops|), cur) == At(n)
  {
    hide Names, Stands, Fits;
    NewLine(p, |b.src.lines|, n, b.scope);
    SameNamed(p, ops, Loc(CurrentLine(b), b.scope), At(n));
  }

  /** The branch that closes a body, when it has one. */
  lemma CloseNamed(p: Page, b2: Builder, h: Builder, n: Note, target: Label, parent: Scope, cur: Option<Mark>)
    requires Stands(p, |b2.src.lines|, parent, n.depth) && Fits(p, |b2.src.lines|, [n]) && Names(p, b2.cfg.loc, cur)
    requires h.cfg.loc == if b2.cfg.exited then b2.cfg.loc else Loc(CurrentLine(b2), parent)
    ensures AllNamed(p, CloseIns(b2, target, parent), CloseSaid(b2, n))
    ensures Names(p, h.cfg.loc, Latest(CloseSaid(b2, n), cur))
  {
    hide Names, Stands, Fits;
    NewLine(p, |b2.src.lines|, n, parent);
  }

  /** A lambda that is a single exit. */
  lemma ExitNamed(p: Page, c: Code, ls: Locals, b: Builder, d: nat, cur: Option<Mark>)
    requires c.Break? || c.Continue? || c.Return? || c.ReturnVoid?
    requires Stands(p, |b.src.lines|, b.scope, d) && Fits(p, |b.src.lines|, LinesOf(c, ls, b, d))
    requires Names(p, b.cfg.loc, cur)
    ensures AllNamed(p, Trace(c, ls, b), Said(c, ls, b, d, cur))
    ensures Names(p, Lower(c, ls, b).cfg.loc, Latest(Said(c, ls, b, d, cur), cur))
  {
    hide Names, Stands, Fits, Emitted, Show, EraseE, LineText;
    var said := Said(c, ls, b, d, cur);
    ExitShape(c, ls, b, d, cur);
    if |said| > 0 {
      LineNamed(p, b, Shapes.OpsOf(Trace(c, ls, b)), said[0].value.note, cur);
    }
  }

  lemma ExitShape(c: Code, ls: Locals, b: Builder, d: nat, cur: Option<Mark>)
    requires c.Break? || c.Continue? || c.Return? || c.ReturnVoid?
    ensures var said, ins, h := Said(c, ls, b, d, cur), Trace(c, ls, b), Lower(c, ls, b);
            |said| == |ins| &&
            (if said == [] then ins == [] && h.cfg.loc == b.cfg.loc && Latest(said, cur) == cur
             else said[0].Some? && said[0] == At(said[0].value.note) && said[0].value.note.depth == d &&
                  said == Same(said[0], |ins|) && LinesOf(c, ls, b, d) == [said[0].value.note] &&
                  ins == WithLoc(Shapes.OpsOf(ins), Loc(CurrentLine(b), b.scope)) &&
                  h.cfg.loc == Loc(CurrentLine(b), b.scope))
  {
    hide Emitted, Show, EraseE, LineText;
  }

  // ----- whole lambdas -----

  /** Every instruction of a lambda is recorded against the line it is said to be and in the scope of that line,
      in any listing that has the lambda's lines where the builder adds them. */
  lemma {:induction false} TraceNamed(p: Page, c: Code, ls: Locals, b: Builder, d: nat, cur: Option<Mark>)
    requires b.src.indent == 4 * d && Stands(p, |b.src.lines|, b.scope, d)
    requires Fits(p, |b.src.lines|, LinesOf(c, ls, b, d)) && Names(p, b.cfg.loc, cur)
    ensures AllNamed(p, Trace(c, ls, b), Said(c, ls, b, d, cur))
    ensures Names(p, Lower(c, ls, b).cfg.loc, Latest(Said(c, ls, b, d, cur), cur))
    decreases c, 1
  {
    hide Names, Stands, Fits, LowerAct, LowerCallThen, LowerIf, LowerIfThen, LowerWhile, TraceAct, TraceCall, TraceIf,
         TraceIfThen, TraceWhile,
         AllNamed, ActionSaid, IfSaid, IfThenSaid, WhileSaid, Latest, Exit, ExitIns, TestSaid, ReturnNote, LineText,
         LinesOf;
    match c
    case Done => NoneSaid(cur); NoneNamed(p);
    case Act(a, next) => ActNamed(p, a, next, ls, b, d, cur);
    case Call(fn, args, next) => CallNamed(p, fn, args, next, ls, b, d, cur);
    case If(e, t, f, next) => IfNamed(p, e, t, f, next, ls, b, d, cur);
    case IfThen(e, t, next) => IfThenNamed(p, e, t, next, ls, b, d, cur);
    case While(cnd, body, next) => WhileNamed(p, cnd, body, next, ls, b, d, cur);
    case _ => ExitNamed(p, c, ls, b, d, cur);
  }

  lemma NoneNamed(p: Page)
    ensures AllNamed(p, [], [])
  {}

  lemma {:induction false} ActNamed(p: Page, a: Action, next: Code, ls: Locals, b: Builder, d: nat, cur: Option<Mark>)
    requires b.src.indent == 4 * d && Stands(p, |b.src.lines|, b.scope, d)
    requires Fits(p, |b.src.lines|, LinesOf(Act(a, next), ls, b, d)) && Names(p, b.cfg.loc, cur)
    ensures AllNamed(p, TraceAct(a, next, ls, b), Said(Act(a, next), ls, b, d, cur))
    ensures Names(p, LowerAct(a, next, ls, b).cfg.loc, Latest(Said(Act(a, next), ls, b, d, cur), cur))
    decreases Act(a, next), 0
  {
    hide Names, Stands, Fits, Lower, Trace, ActionSaid, AllNamed, LowerAction, ActionLocals, ActionIns, Latest,
         ActionNote;
    var ls1, b1, first := ActionLocals(a, ls, b), LowerAction(a, ls, b), ActionSaid(a, ls, b, d, cur);
    var rest := Said(next, ls1, b1, d, Latest(first, cur));
    ActionPasses(p, a, ls, b, d, LinesOf(next, ls1, b1, d));
    ActionNamed(p, a, ls, b, d, cur);
    TraceNamed(p, next, ls1, b1, d, Latest(first, cur));
    NamedAppend(p, ActionIns(a, ls, b), Trace(next, ls1, b1), first, rest);
    LatestAppend(first, rest, cur);
  }

  lemma CallLoc(fn: FnRef, args: seq<Expr>, ls: Locals, b: Builder)
    ensures LowerCall(fn, args, ls, b).cfg.loc == Loc(CurrentLine(b), b.scope)
    ensures LowerCall(fn, args, ls, b).scope == b.scope
  {
    hide EmittedArgs, ShowArgs;
  }

  lemma {:induction false} CallNamed(p: Page, fn: FnRef, args: seq<Expr>, next: Code, ls: Locals, b: Builder, d: nat,
      cur: Option<Mark>)
    requires b.src.indent == 4 * d && Stands(p, |b.src.lines|, b.scope, d)
    requires Fits(p, |b.src.lines|, LinesOf(Call(fn, args, next), ls, b, d)) && Names(p, b.cfg.loc, cur)
    ensures AllNamed(p, TraceCall(fn, args, next, ls, b), Said(Call(fn, args, next), ls, b, d, cur))
    ensures Names(p, LowerCallThen(fn, args, next, ls, b).cfg.loc,
            Latest(Said(Call(fn, args, next), ls, b, d, cur), cur))
    decreases Call(fn, args, next), 0
  {
    hide Said, TraceCall, Names, Stands, Fits, Lower, Trace, AllNamed, LowerCall, CallLocals, CallNote, Latest,
         EmittedArgs, Same;
    var ls1, b1, note := CallLocals(fn, args, ls, b), LowerCall(fn, args, ls, b), CallNote(fn, args, ls, d);
    var cs := EmittedArgs(args, ls.vals, b.cfg.nextReg);
    var ops := cs.ops + [ICall(cs.next, fn.idx, cs.res)];
    var first, rest := Same(At(note), |ops|), Said(next, ls1, b1, d, At(note));
    CallDeep(fn, args, ls, d);
    CallAdds(fn, args, ls, b, d);
    FitsTwice(p, b, b1, [note], LinesOf(next, ls1, b1, d), d);
    StandsOn(p, |b.src.lines|, b.scope, d, [note]);
    LineNamed(p, b, ops, note, cur);
    CallLoc(fn, args, ls, b);
    TraceNamed(p, next, ls1, b1, d, At(note));
    NamedAppend(p, CallIns(fn, args, ls, b), Trace(next, ls1, b1), first, rest);
    LatestAppend(first, rest, cur);
    CallSaid(fn, args, next, ls, b, d, cur);
  }

  lemma CallDeep(fn: FnRef, args: seq<Expr>, ls: Locals, d: nat)
    ensures CallNote(fn, args, ls, d).depth == d
  {}

  lemma CallSaid(fn: FnRef, args: seq<Expr>, next: Code, ls: Locals, b: Builder, d: nat, cur: Option<Mark>)
    ensures var ls1, b1, at := CallLocals(fn, args, ls, b), LowerCall(fn, args, ls, b), At(CallNote(fn, args, ls, d));
            Said(Call(fn, args, next), ls, b, d, cur) ==
            Same(at, |EmittedArgs(args, ls.vals, b.cfg.nextReg).ops| + 1) + Said(next, ls1, b1, d, at) &&
            TraceCall(fn, args, next, ls, b) == CallIns(fn, args, ls, b) + Trace(next, ls1, b1)
  {
    hide Trace, CallLocals, LowerCall, CallNote, EmittedArgs, CallIns;
  }

  /** A body and the branch that closes it; the scope around it is in force again at the closing line. */
  lemma {:induction false} ArmNamed(p: Page, whole: Code, arm: Code, ls: Locals, b: Builder, b1: Builder, h: Builder,
      close: Note, d: nat, d1: nat, target: Label, cur: Option<Mark>)
    requires arm < whole && b1.src.indent == 4 * (d + 1) && Stands(p, |b1.src.lines|, b1.scope, d + 1)
    requires Stands(p, |b1.src.lines|, b.scope, d) && close.depth == d && Names(p, b1.cfg.loc, cur)
    requires Fits(p, |b1.src.lines|, LinesOf(arm, ls, b1, d + 1) + [close])
    requires var b2 := Lower(arm, ls, b1);
             AddsLines(b2, h, [close], d1) &&
             h.cfg.loc == if b2.cfg.exited then b2.cfg.loc else Loc(CurrentLine(b2), b.scope)
    ensures AllNamed(p, Trace(arm, ls, b1) + CloseIns(Lower(arm, ls, b1), target, b.scope),
            ArmSaid(arm, ls, b1, d, cur, close))
    ensures Names(p, h.cfg.loc, Latest(ArmSaid(arm, ls, b1, d, cur, close), cur))
    ensures var n := |Lower(arm, ls, b1).src.lines|;
            Stands(p, n, b.scope, d) && Fits(p, n, [close]) && |h.src.lines| == n + 1 &&
            Stands(p, n + 1, b.scope, d) && Stands(p, n + 1, Lexical(b.scope, n + 2), d + 1)
    decreases whole, 0, 0
  {
    hide Names, Stands, Fits, AddsLines, Lower, Trace, AllNamed, Said, Latest, CloseIns, CloseSaid, LinesOf;
    var b2, said, inner := Lower(arm, ls, b1), Said(arm, ls, b1, d + 1, cur), LinesOf(arm, ls, b1, d + 1);
    LowerAdds(arm, ls, b1, d + 1);
    LinesDeep(arm, ls, b1, d + 1);
    FitsTwice(p, b1, b2, inner, [close], d + 1);
    AddedCount(b1, b2, inner, d + 1);
    AddedCount(b2, h, [close], d1);
    StandsOn(p, |b1.src.lines|, b.scope, d, inner);
    StandsOn(p, |b2.src.lines|, b.scope, d, [close]);
    StandsIn(p, |b2.src.lines|, b.scope, d, close);
    TraceNamed(p, arm, ls, b1, d + 1, cur);
    CloseNamed(p, b2, h, close, target, b.scope, Latest(said, cur));
    NamedAppend(p, Trace(arm, ls, b1), CloseIns(b2, target, b.scope), said, CloseSaid(b2, close));
    LatestAppend(said, CloseSaid(b2, close), cur);
  }

  lemma AddedCount(b: Builder, h: Builder, notes: seq<Note>, d: nat)
    requires AddsLines(b, h, notes, d)
    ensures |h.src.lines| == |b.src.lines| + |notes| && h.src.indent == 4 * d
  {}

  lemma HeadLocs(e: Expr, ls: Locals, b: Builder)
    ensures IfHead(e, ls, b).cfg.loc == Loc(CurrentLine(b), b.scope) &&
            IfThenHead(e, ls, b).cfg.loc == Loc(CurrentLine(b), b.scope)
    ensures IfHead(e, ls, b).scope == Lexical(b.scope, CurrentLine(b) + 1) == IfThenHead(e, ls, b).scope
  {
    hide Emitted, Show;
  }

  lemma TailLocs(b: Builder, b2: Builder)
    ensures var loc := if b2.cfg.exited then b2.cfg.loc else Loc(CurrentLine(b2), b.scope);
            IfElse(b, b2).cfg.loc == IfEnd(b, b2).cfg.loc == IfThenEnd(b, b2).cfg.loc == WhileEnd(b, b2).cfg.loc == loc
    ensures IfEnd(b, b2).scope == IfThenEnd(b, b2).scope == WhileEnd(b, b2).scope == b.scope
    ensures IfElse(b, b2).scope == Lexical(b.scope, CurrentLine(b2) + 1)
  {}

  /** Where a two-armed if_ has its lines. */
  lemma {:induction false} IfFits(p: Page, e: Expr, t: Code, f: Code, next: Code, ls: Locals, b: Builder, d: nat)
    requires b.src.indent == 4 * d && Fits(p, |b.src.lines|, LinesOf(If(e, t, f, next), ls, b, d))
    ensures var b1 := IfHead(e, ls, b);
            var b2 := Lower(t, ls, b1);
            var b3 := IfElse(b, b2);
            var b4 := Lower(f, ls, b3);
            var b5 := IfEnd(b, b4);
            var mid, end := Note(d, "} else {"), Note(d, "}");
            Fits(p, |b.src.lines|, [IfNote(e, ls, d)]) && |b1.src.lines| == |b.src.lines| + 1 &&
            b1.src.indent == b3.src.indent == 4 * (d + 1) && b5.src.indent == 4 * d &&
            Fits(p, |b1.src.lines|, LinesOf(t, ls, b1, d + 1) + [mid]) && AddsLines(b2, b3, [mid], d + 1) &&
            Fits(p, |b3.src.lines|, LinesOf(f, ls, b3, d + 1) + [end]) && AddsLines(b4, b5, [end], d) &&
            Fits(p, |b5.src.lines|, LinesOf(next, ls, b5, d))
  {
    hide Fits, AddsLines, Lower, LinesOf, IfHead, IfElse, IfEnd, IfNote;
    var whole, b1 := If(e, t, f, next), IfHead(e, ls, b);
    var b2 := Lower(t, ls, b1);
    var b3 := IfElse(b, b2);
    var b4 := Lower(f, ls, b3);
    var b5 := IfEnd(b, b4);
    var head, yes, no, rest := [IfNote(e, ls, d)], LinesOf(t, ls, b1, d + 1), LinesOf(f, ls, b3, d + 1),
        LinesOf(next, ls, b5, d);
    var mid, end := [Note(d, "} else {")], [Note(d, "}")];
    IfHeadAdds(e, ls, b, d);
    AddedCount(b, b1, head, d + 1);
    ArmIndent(whole, t, ls, b1, d + 1);
    TailAdds(b, b2, d);
    ArmAdds(whole, t, ls, b, b1, b3, mid[0], d, d + 1);
    AddedCount(b2, b3, mid, d + 1);
    ArmIndent(whole, f, ls, b3, d + 1);
    TailAdds(b, b4, d);
    ArmAdds(whole, f, ls, b, b3, b5, end[0], d, d);
    AddedCount(b4, b5, end, d);
    IfLinesAre(e, t, f, next, ls, b, d);
    FitsTwice(p, b, b1, head, (yes + mid) + ((no + end) + rest), d + 1);
    FitsTwice(p, b1, b3, yes + mid, (no + end) + rest, d + 1);
    FitsTwice(p, b3, b5, no + end, rest, d);
  }

  lemma IfLinesAre(e: Expr, t: Code, f: Code, next: Code, ls: Locals, b: Builder, d: nat)
    ensures var b1 := IfHead(e, ls, b);
            var b3 := IfElse(b, Lower(t, ls, b1));
            LinesOf(If(e, t, f, next), ls, b, d) ==
            [IfNote(e, ls, d)] + ((LinesOf(t, ls, b1, d + 1) + [Note(d, "} else {")]) +
              ((LinesOf(f, ls, b3, d + 1) + [Note(d, "}")]) + LinesOf(next, ls, IfEnd(b, Lower(f, ls, b3)), d)))
  {
    hide Lower, IfHead, IfElse, IfEnd, IfNote, LinesOf;
    var b1 := IfHead(e, ls, b);
    var b3 := IfElse(b, Lower(t, ls, b1));
    assert LinesOf(If(e, t, f, next), ls, b, d) == IfLines(e, t, f, next, ls, b, d) by {
      IfLinesOf(e, t, f, next, ls, b, d);
    }
    Grouped([IfNote(e, ls, d)], LinesOf(t, ls, b1, d + 1), [Note(d, "} else {")], LinesOf(f, ls, b3, d + 1),
        [Note(d, "}")], LinesOf(next, ls, IfEnd(b, Lower(f, ls, b3)), d));
  }

  lemma IfLinesOf(e: Expr, t: Code, f: Code, next: Code, ls: Locals, b: Builder, d: nat)
    ensures LinesOf(If(e, t, f, next), ls, b, d) == IfLines(e, t, f, next, ls, b, d)
  {
    hide IfLines;
  }

  lemma Grouped(x0: seq<Note>, x1: seq<Note>, x2: seq<Note>, x3: seq<Note>, x4: seq<Note>, x5: seq<Note>)
    ensures x0 + x1 + x2 + x3 + x4 + x5 == x0 + ((x1 + x2) + ((x3 + x4) + x5))
  {}

  lemma {:induction false} IfNamed(p: Page, e: Expr, t: Code, f: Code, next: Code, ls: Locals, b: Builder, d: nat,
      cur: Option<Mark>)
    requires b.src.indent == 4 * d && Stands(p, |b.src.lines|, b.scope, d)
    requires Fits(p, |b.src.lines|, LinesOf(If(e, t, f, next), ls, b, d)) && Names(p, b.cfg.loc, cur)
    ensures AllNamed(p, TraceIf(e, t, f, next, ls, b), IfSaid(e, t, f, next, ls, b, d))
    ensures Names(p, LowerIf(e, t, f, next, ls, b).cfg.loc, Latest(IfSaid(e, t, f, next, ls, b, d), cur))
    decreases If(e, t, f, next), 0, 1
  {
    hide Names, Stands, Fits, AddsLines, Lower, Trace, TraceIf, AllNamed, Said, Latest, IfHead, IfElse, IfEnd, TestIns,
         CloseIns, ArmSaid, Emitted, Same, LinesOf, IfNote, TrueOf, FalseOf, MergeOf, TestSaid, At;
    var whole, b1, note := If(e, t, f, next), IfHead(e, ls, b), IfNote(e, ls, d);
    IfDeep(e, ls, d);
    var b2 := Lower(t, ls, b1);
    var b3 := IfElse(b, b2);
    var b4 := Lower(f, ls, b3);
    var b5 := IfEnd(b, b4);
    assert LowerIf(e, t, f, next, ls, b) == Lower(next, ls, b5);
    hide LowerIf;
    IfFits(p, e, t, f, next, ls, b, d);
    HeadLocs(e, ls, b);
    TailLocs(b, b2);
    TailLocs(b, b4);
    StandsOn(p, |b.src.lines|, b.scope, d, [note]);
    StandsIn(p, |b.src.lines|, b.scope, d, note);
    TestNamed(p, e, ls, b, TrueOf(b), FalseOf(b), note, cur);
    ArmNamed(p, whole, t, ls, b, b1, b3, Note(d, "} else {"), d, d + 1, MergeOf(b), At(note));
    var yes := ArmSaid(t, ls, b1, d, At(note), Note(d, "} else {"));
    ArmNamed(p, whole, f, ls, b, b3, b5, Note(d, "}"), d, d, MergeOf(b), Latest(yes, At(note)));
    var no := ArmSaid(f, ls, b3, d, Latest(yes, At(note)), Note(d, "}"));
    var rest := Said(next, ls, b5, d, Latest(no, Latest(yes, At(note))));
    TraceNamed(p, next, ls, b5, d, Latest(no, Latest(yes, At(note))));
    Emission.TraceParts(e, t, f, next, ls, b);
    FourNamed(p, TestIns(e, ls, b, TrueOf(b), FalseOf(b)), Trace(t, ls, b1) + CloseIns(b2, MergeOf(b), b.scope),
        Trace(f, ls, b3) + CloseIns(b4, MergeOf(b), b.scope), Trace(next, ls, b5), TestSaid(e, ls, b, note), yes,
        no, rest, cur);
  }

  lemma IfDeep(e: Expr, ls: Locals, d: nat)
    ensures IfNote(e, ls, d).depth == d
  {}

  lemma TestNamed(p: Page, e: Expr, ls: Locals, b: Builder, yes: Label, no: Label, n: Note, cur: Option<Mark>)
    requires Stands(p, |b.src.lines|, b.scope, n.depth) && Fits(p, |b.src.lines|, [n])
    ensures AllNamed(p, TestIns(e, ls, b, yes, no), TestSaid(e, ls, b, n)) &&
            Latest(TestSaid(e, ls, b, n), cur) == At(n)
    ensures Names(p, Loc(CurrentLine(b), b.scope), At(n))
  {
    hide Names, Stands, Fits, Emitted, AllNamed;
    var c := Emitted(e, ls.vals, b.cfg.nextReg);
    LineNamed(p, b, c.ops + [ICondBr(c.res, yes, no)], n, cur);
  }

  lemma FourNamed(p: Page, x0: seq<Ins>, x1: seq<Ins>, x2: seq<Ins>, x3: seq<Ins>, n0: seq<Option<Mark>>,
      n1: seq<Option<Mark>>, n2: seq<Option<Mark>>, n3: seq<Option<Mark>>, cur: Option<Mark>)
    requires AllNamed(p, x0, n0) && AllNamed(p, x1, n1) && AllNamed(p, x2, n2) && AllNamed(p, x3, n3)
    ensures AllNamed(p, x0 + x1 + x2 + x3, n0 + n1 + n2 + n3)
    ensures Latest(n0 + n1 + n2 + n3, cur) == Latest(n3, Latest(n2, Latest(n1, Latest(n0, cur))))
  {
    hide AllNamed, Latest;
    NamedAppend(p, x0, x1, n0, n1);
    NamedAppend(p, x0 + x1, x2, n0 + n1, n2);
    NamedAppend(p, x0 + x1 + x2, x3, n0 + n1 + n2, n3);
    LatestAppend(n0, n1, cur);
    LatestAppend(n0 + n1, n2, cur);
    LatestAppend(n0 + n1 + n2, n3, cur);
  }

  lemma {:induction false} IfThenFits(p: Page, e: Expr, t: Code, next: Code, ls: Locals, b: Builder, d: nat)
    requires b.src.indent == 4 * d && Fits(p, |b.src.lines|, LinesOf(IfThen(e, t, next), ls, b, d))
    ensures var b1 := IfThenHead(e, ls, b);
            var b2 := Lower(t, ls, b1);
            var b3 := IfThenEnd(b, b2);
            Fits(p, |b.src.lines|, [IfNote(e, ls, d)]) && |b1.src.lines| == |b.src.lines| + 1 &&
            b1.src.indent == 4 * (d + 1) && b3.src.indent == 4 * d &&
            Fits(p, |b1.src.lines|, LinesOf(t, ls, b1, d + 1) + [Note(d, "}")]) &&
            AddsLines(b2, b3, [Note(d, "}")], d) && Fits(p, |b3.src.lines|, LinesOf(next, ls, b3, d))
  {
    hide Fits, AddsLines, Lower, IfThenHead, IfThenEnd, IfNote, LinesOf;
    var whole, b1 := IfThen(e, t, next), IfThenHead(e, ls, b);
    var b2 := Lower(t, ls, b1);
    var b3 := IfThenEnd(b, b2);
    var head, yes, end, rest := [IfNote(e, ls, d)], LinesOf(t, ls, b1, d + 1), [Note(d, "}")], LinesOf(next, ls, b3, d);
    IfHeadAdds(e, ls, b, d);
    AddedCount(b, b1, head, d + 1);
    ArmIndent(whole, t, ls, b1, d + 1);
    TailAdds(b, b2, d);
    ArmAdds(whole, t, ls, b, b1, b3, end[0], d, d);
    AddedCount(b2, b3, end, d);
    IfThenLinesAre(e, t, next, ls, b, d);
    FitsTwice(p, b, b1, head, (yes + end) + rest, d + 1);
    FitsTwice(p, b1, b3, yes + end, rest, d);
  }

  lemma IfThenLinesAre(e: Expr, t: Code, next: Code, ls: Locals, b: Builder, d: nat)
    ensures var b1 := IfThenHead(e, ls, b);
            LinesOf(IfThen(e, t, next), ls, b, d) ==
            [IfNote(e, ls, d)] + ((LinesOf(t, ls, b1, d + 1) + [Note(d, "}")]) +
              LinesOf(next, ls, IfThenEnd(b, Lower(t, ls, b1)), d))
  {
    hide Lower, IfThenHead, IfThenEnd, IfNote;
  }

  lemma {:induction false} IfThenNamed(p: Page, e: Expr, t: Code, next: Code, ls: Locals, b: Builder, d: nat,
      cur: Option<Mark>)
    requires b.src.indent == 4 * d && Stands(p, |b.src.lines|, b.scope, d)
    requires Fits(p, |b.src.lines|, LinesOf(IfThen(e, t, next), ls, b, d)) && Names(p, b.cfg.loc, cur)
    ensures AllNamed(p, TraceIfThen(e, t, next, ls, b), IfThenSaid(e, t, next, ls, b, d))
    ensures Names(p, LowerIfThen(e, t, next, ls, b).cfg.loc, Latest(IfThenSaid(e, t, next, ls, b, d), cur))
    decreases IfThen(e, t, next), 0, 1
  {
    hide Names, Stands, Fits, AddsLines, Lower, Trace, TraceIfThen, AllNamed, Said, Latest, IfThenHead, IfThenEnd,
         TestIns,
         CloseIns, ArmSaid, Emitted, Same, LinesOf, IfNote;
    var whole, b1, note := IfThen(e, t, next), IfThenHead(e, ls, b), IfNote(e, ls, d);
    IfDeep(e, ls, d);
    var b2 := Lower(t, ls, b1);
    var b3 := IfThenEnd(b, b2);
    IfThenFits(p, e, t, next, ls, b, d);
    HeadLocs(e, ls, b);
    TailLocs(b, b2);
    StandsOn(p, |b.src.lines|, b.scope, d, [note]);
    StandsIn(p, |b.src.lines|, b.scope, d, note);
    TestNamed(p, e, ls, b, TrueOf(b), MergeOnlyOf(b), note, cur);
    ArmNamed(p, whole, t, ls, b, b1, b3, Note(d, "}"), d, d, MergeOnlyOf(b), At(note));
    var yes := ArmSaid(t, ls, b1, d, At(note), Note(d, "}"));
    var rest := Said(next, ls, b3, d, Latest(yes, At(note)));
    TraceNamed(p, next, ls, b3, d, Latest(yes, At(note)));
    ThreeNamed(p, TestIns(e, ls, b, TrueOf(b), MergeOnlyOf(b)),
        Trace(t, ls, b1) + CloseIns(b2, MergeOnlyOf(b), b.scope), Trace(next, ls, b3), TestSaid(e, ls, b, note), yes,
        rest, cur);
    ArmParts(e, t, next, ls, b);
  }

  lemma ArmParts(e: Expr, t: Code, next: Code, ls: Locals, b: Builder)
    ensures var b1 := IfThenHead(e, ls, b);
            var b2 := Lower(t, ls, b1);
            TraceIfThen(e, t, next, ls, b) ==
            TestIns(e, ls, b, TrueOf(b), MergeOnlyOf(b)) + (Trace(t, ls, b1) + CloseIns(b2, MergeOnlyOf(b), b.scope)) +
            Trace(next, ls, IfThenEnd(b, b2))
  {
    hide Trace, Lower, IfThenHead, IfThenEnd, TestIns, CloseIns;
  }

  lemma ThreeNamed(p: Page, x0: seq<Ins>, x1: seq<Ins>, x2: seq<Ins>, n0: seq<Option<Mark>>, n1: seq<Option<Mark>>,
      n2: seq<Option<Mark>>, cur: Option<Mark>)
    requires AllNamed(p, x0, n0) && AllNamed(p, x1, n1) && AllNamed(p, x2, n2)
    ensures AllNamed(p, x0 + x1 + x2, n0 + n1 + n2) &&
            Latest(n0 + n1 + n2, cur) == Latest(n2, Latest(n1, Latest(n0, cur)))
  {
    hide AllNamed, Latest;
    NamedAppend(p, x0, x1, n0, n1);
    NamedAppend(p, x0 + x1, x2, n0 + n1, n2);
    LatestAppend(n0, n1, cur);
    LatestAppend(n0 + n1, n2, cur);
  }

  // ----- loops -----

  lemma OneNamed(p: Page, i: Ins, m: Option<Mark>)
    requires Names(p, i.loc, m)
    ensures AllNamed(p, [i], [m])
  {}

  lemma EntryLocs(cnd: Cond, ls: Locals, b: Builder)
    ensures var b1 := LowerReads(cnd.first, ls, BeforeReads(b)).0;
            WhileEntry(cnd, ls, b).cfg.loc == b1.cfg.loc && WhileEntry(cnd, ls, b).scope == b.scope &&
            EntryIns(cnd, ls, b) == ReadsCode(cnd.first, ls, BeforeReads(b)) + [Ins(IBr(ContinueOf(b)), b1.cfg.loc)]
  {
    hide LowerReads, ReadsCode, Show;
    Emission.ReadsLines(cnd.first, ls, BeforeReads(b));
  }

  lemma EntryNamed(p: Page, cnd: Cond, ls: Locals, b: Builder, d: nat, cur: Option<Mark>)
    requires b.src.indent == 4 * d && Stands(p, |b.src.lines|, b.scope, d)
    requires Fits(p, |b.src.lines|, ReadLines(cnd.first, ls, BeforeReads(b), d))
    requires Names(p, BeforeReads(b).cfg.loc, cur)
    ensures AllNamed(p, EntryIns(cnd, ls, b), EntrySaid(cnd, ls, b, d, cur))
    ensures Names(p, WhileEntry(cnd, ls, b).cfg.loc, Latest(EntrySaid(cnd, ls, b, d, cur), None))
  {
    hide Names, Stands, Fits, AllNamed, LowerReads, ReadsCode, ReadsSaid, WhileEntry, EntryIns, ReadLines;
    var b1, copy := LowerReads(cnd.first, ls, BeforeReads(b)).0, ReadsSaid(cnd.first, ls, BeforeReads(b), d, cur);
    EntryLocs(cnd, ls, b);
    ReadsNamed(p, cnd.first, ls, BeforeReads(b), d, cur);
    OneNamed(p, Ins(IBr(ContinueOf(b)), b1.cfg.loc), Latest(copy, cur));
    NamedAppend(p, ReadsCode(cnd.first, ls, BeforeReads(b)), [Ins(IBr(ContinueOf(b)), b1.cfg.loc)], copy,
        [Latest(copy, cur)]);
  }

  lemma HeaderLocs(cnd: Cond, ls: Locals, b: Builder)
    ensures var b3 := WhileEntry(cnd, ls, b);
            var (b4, ls4) := LowerReads(cnd.first, ls, b3);
            var c := Emitted(cnd.test, ls4.vals, b4.cfg.nextReg);
            WhileHead(cnd, ls, b).cfg.loc == b4.cfg.loc &&
            WhileHead(cnd, ls, b).scope == Lexical(b.scope, CurrentLine(WhileHead(cnd, ls, b))) &&
            HeaderIns(cnd, ls, b, b3) ==
            ReadsCode(cnd.first, ls, b3) + WithLoc(c.ops + [ICondBr(c.res, IterationOf(b), BreakOf(b))], b4.cfg.loc)
  {
    hide LowerReads, ReadsCode, Emitted, WhileEntry;
  }

  lemma HeaderNamed(p: Page, cnd: Cond, ls: Locals, b: Builder, d: nat, cur: Option<Mark>)
    requires var b3 := WhileEntry(cnd, ls, b);
             b3.src.indent == 4 * d && Stands(p, |b3.src.lines|, b3.scope, d) &&
             Fits(p, |b3.src.lines|, ReadLines(cnd.first, ls, b3, d)) && Names(p, b3.cfg.loc, cur)
    ensures AllNamed(p, HeaderIns(cnd, ls, b, WhileEntry(cnd, ls, b)), HeaderSaid(cnd, ls, b, d, cur))
    ensures Names(p, WhileHead(cnd, ls, b).cfg.loc, Latest(HeaderSaid(cnd, ls, b, d, cur), None))
  {
    hide Names, Stands, Fits, AllNamed, LowerReads, ReadsCode, ReadsSaid, WhileEntry, WhileHead, HeaderIns, Emitted,
         ReadLines;
    var b3 := WhileEntry(cnd, ls, b);
    var (b4, ls4) := LowerReads(cnd.first, ls, b3);
    var c, copy := Emitted(cnd.test, ls4.vals, b4.cfg.nextReg), ReadsSaid(cnd.first, ls, b3, d, cur);
    var ops := c.ops + [ICondBr(c.res, IterationOf(b), BreakOf(b))];
    HeaderLocs(cnd, ls, b);
    ReadsNamed(p, cnd.first, ls, b3, d, cur);
    SameNamed(p, ops, b4.cfg.loc, Latest(copy, cur));
    NamedAppend(p, ReadsCode(cnd.first, ls, b3), WithLoc(ops, b4.cfg.loc), copy, Same(Latest(copy, cur), |ops|));
  }

  /** A loop's second line, and the scope of its first. */
  lemma AheadNamed(p: Page, cnd: Cond, body: Code, ls: Locals, b: Builder, d: nat)
    requires Stands(p, |b.src.lines|, b.scope, d) && Fits(p, |b.src.lines|, LoopLines(cnd, body, ls, b, d))
    ensures Names(p, BeforeReads(b).cfg.loc, Ahead(cnd, body, ls, b, d))
  {
    hide LoopLines, ScopeAfter, WellNested;
    var n, notes := |b.src.lines|, LoopLines(cnd, body, ls, b, d);
    LoopBegins(cnd, body, ls, b, d);
    assert p.notes[n] == p.notes[n..n + |notes|][0] && p.notes[n + 1] == p.notes[n..n + |notes|][1];
    if Loads(cnd.first) > 0 {
      assert p.notes[n..n + 1] == [notes[0]];
      StandsOn(p, n, b.scope, d, [notes[0]]);
    }
  }

  lemma LoopBegins(cnd: Cond, body: Code, ls: Locals, b: Builder, d: nat)
    ensures LoopLines(cnd, body, ls, b, d)[0].depth == d
    ensures Loads(cnd.first) > 0 ==> LoopLines(cnd, body, ls, b, d)[1].depth == d
  {
    hide LinesOf, ReadLines, WhileNote, Lower, WhileHead, WhileEntry;
    var first, second := ReadLines(cnd.first, ls, BeforeReads(b), d),
        ReadLines(cnd.first, ls, WhileEntry(cnd, ls, b), d);
    ReadsDeep(cnd.first, ls, BeforeReads(b), d);
    ReadsCount(cnd.first, ls, BeforeReads(b), d);
    WhileDeep(cnd, ls, b, d);
    var notes := LoopLines(cnd, body, ls, b, d);
    assert forall i :: 0 <= i < |first| ==> notes[i] == first[i];
    assert notes[|first|] == WhileNote(cnd, ls, b, d);
  }

  lemma WhileDeep(cnd: Cond, ls: Locals, b: Builder, d: nat)
    ensures WhileNote(cnd, ls, b, d).depth == d
  {}

  lemma {:induction false} ReadsCount(rds: seq<Read>, ls: Locals, b: Builder, d: nat)
    ensures |ReadLines(rds, ls, b, d)| == Loads(rds)
    decreases |rds|
  {
    hide LineText, EraseE, LowerRead, ReadLocals;
    if rds != [] {
      ReadsCount(rds[1..], ReadLocals(rds[0], ls, b), LowerRead(rds[0], ls, b), d);
    }
  }

  /** Where a loop has its lines. */
  lemma {:induction false} LoopFits(p: Page, cnd: Cond, body: Code, next: Code, ls: Locals, b: Builder, d: nat)
    requires b.src.indent == 4 * d && Fits(p, |b.src.lines|, LinesOf(While(cnd, body, next), ls, b, d))
    ensures var b3, b5 := WhileEntry(cnd, ls, b), WhileHead(cnd, ls, b);
            var b6 := Lower(body, ls, b5);
            var b7 := WhileEnd(b, b6);
            var first, second := ReadLines(cnd.first, ls, BeforeReads(b), d), ReadLines(cnd.first, ls, b3, d);
            var entry := first + [WhileNote(cnd, ls, b, d)];
            Fits(p, |b.src.lines|, LoopLines(cnd, body, ls, b, d)) && Fits(p, |b.src.lines|, first) &&
            Fits(p, |b.src.lines|, entry) && Fits(p, |b.src.lines|, entry + second) &&
            Fits(p, |b3.src.lines|, second) &&
            b3.src.indent == 4 * d && |b3.src.lines| == |b.src.lines| + |entry| &&
            b5.src.indent == 4 * (d + 1) && |b5.src.lines| == |b.src.lines| + |entry + second| &&
            Fits(p, |b5.src.lines|, LinesOf(body, ls, b5, d + 1) + [Note(d, "}")]) &&
            AddsLines(b6, b7, [Note(d, "}")], d) && b7.src.indent == 4 * d &&
            Fits(p, |b7.src.lines|, LinesOf(next, ls, b7, d))
  {
    hide Fits, AddsLines, Lower, LinesOf, WhileEntry, WhileHead, WhileEnd, ReadLines, WhileNote;
    var whole, b3, b5 := While(cnd, body, next), WhileEntry(cnd, ls, b), WhileHead(cnd, ls, b);
    var b6 := Lower(body, ls, b5);
    var b7 := WhileEnd(b, b6);
    var first, second := ReadLines(cnd.first, ls, BeforeReads(b), d), ReadLines(cnd.first, ls, b3, d);
    var entry := first + [WhileNote(cnd, ls, b, d)];
    var inner, end, rest := LinesOf(body, ls, b5, d + 1), [Note(d, "}")], LinesOf(next, ls, b7, d);
    EntryAdds(cnd, ls, b, d);
    AddedCount(b, b3, entry, d);
    HeadAdds(cnd, ls, b, d);
    AddedCount(b3, b5, second, d + 1);
    AddsTwice(b, b3, b5, entry, second, d, d + 1);
    ArmIndent(whole, body, ls, b5, d + 1);
    TailAdds(b, b6, d);
    ArmAdds(whole, body, ls, b, b5, b7, end[0], d, d);
    AddedCount(b6, b7, end, d);
    LoopAdds(cnd, body, next, ls, b, d);
    LoopLinesAre(cnd, body, next, ls, b, d);
    FitsTwice(p, b, b7, LoopLines(cnd, body, ls, b, d), rest, d);
    FitsTwice(p, b, b5, entry + second, inner + end, d + 1);
    FitsTwice(p, b, b3, entry, second, d);
    FitsPrefix(p, |b.src.lines|, first, [WhileNote(cnd, ls, b, d)]);
  }

  lemma LoopLinesAre(cnd: Cond, body: Code, next: Code, ls: Locals, b: Builder, d: nat)
    ensures var b5 := WhileHead(cnd, ls, b);
            LinesOf(While(cnd, body, next), ls, b, d) ==
            LoopLines(cnd, body, ls, b, d) + LinesOf(next, ls, WhileEnd(b, Lower(body, ls, b5)), d) &&
            LoopLines(cnd, body, ls, b, d) ==
            ((ReadLines(cnd.first, ls, BeforeReads(b), d) + [WhileNote(cnd, ls, b, d)]) +
              ReadLines(cnd.first, ls, WhileEntry(cnd, ls, b), d)) + (LinesOf(body, ls, b5, d + 1) + [Note(d, "}")])
  {
    hide Lower, WhileEntry, WhileHead, WhileEnd, ReadLines, WhileNote;
  }

  lemma FitsPrefix(p: Page, n: nat, xs: seq<Note>, ys: seq<Note>)
    requires Fits(p, n, xs + ys)
    ensures Fits(p, n, xs)
  {
    Slices(p.notes, n, |xs|, |xs + ys|);
    assert (xs + ys)[..|xs|] == xs;
  }

  lemma {:induction false} WhileNamed(p: Page, cnd: Cond, body: Code, next: Code, ls: Locals, b: Builder, d: nat,
      cur: Option<Mark>)
    requires b.src.indent == 4 * d && Stands(p, |b.src.lines|, b.scope, d)
    requires Fits(p, |b.src.lines|, LinesOf(While(cnd, body, next), ls, b, d)) && Names(p, b.cfg.loc, cur)
    ensures AllNamed(p, TraceWhile(cnd, body, next, ls, b), WhileSaid(cnd, body, next, ls, b, d))
    ensures Names(p, LowerWhile(cnd, body, next, ls, b).cfg.loc, Latest(WhileSaid(cnd, body, next, ls, b, d), cur))
    decreases While(cnd, body, next), 0, 1
  {
    hide Names, Stands, Fits, AddsLines, Lower, Trace, TraceWhile, AllNamed, Said, Latest, WhileEntry, WhileTest,
         WhileEnd,
         WhileHead, EntryIns, HeaderIns, CloseIns, ArmSaid, EntrySaid, HeaderSaid, Ahead, LoopLines, ReadLines,
         WhileNote, LinesOf;
    var whole, b3, b5 := While(cnd, body, next), WhileEntry(cnd, ls, b), WhileHead(cnd, ls, b);
    var b6 := Lower(body, ls, b5);
    var b7, close := WhileEnd(b, b6), Note(d, "}");
    LoopFits(p, cnd, body, next, ls, b, d);
    LoopStands(p, cnd, ls, b, d);
    AheadNamed(p, cnd, body, ls, b, d);
    TailLocs(b, b6);
    var entry := EntrySaid(cnd, ls, b, d, Ahead(cnd, body, ls, b, d));
    EntryNamed(p, cnd, ls, b, d, Ahead(cnd, body, ls, b, d));
    var header := HeaderSaid(cnd, ls, b, d, Latest(entry, None));
    HeaderNamed(p, cnd, ls, b, d, Latest(entry, None));
    var at := Latest(header, None);
    var inner := ArmSaid(body, ls, b5, d, at, close);
    ArmNamed(p, whole, body, ls, b, b5, b7, close, d, d, ContinueOf(b), at);
    var rest := Said(next, ls, b7, d, Latest(inner, at));
    TraceNamed(p, next, ls, b7, d, Latest(inner, at));
    FourNamed(p, EntryIns(cnd, ls, b), HeaderIns(cnd, ls, b, b3),
        Trace(body, ls, b5) + CloseIns(b6, ContinueOf(b), b.scope), Trace(next, ls, b7), entry, header, inner, rest,
        None);
    NonEmpty(cnd, ls, b, d, Ahead(cnd, body, ls, b, d), Latest(entry, None));
    AnyStart(entry + header + inner + rest, cur);
    AnyStart(header, Latest(entry, None));
    LoopParts(cnd, body, next, ls, b);
  }

  /** The scopes of a loop's header and of its body. */
  lemma LoopStands(p: Page, cnd: Cond, ls: Locals, b: Builder, d: nat)
    requires Stands(p, |b.src.lines|, b.scope, d)
    requires var first, second := ReadLines(cnd.first, ls, BeforeReads(b), d),
               ReadLines(cnd.first, ls, WhileEntry(cnd, ls, b), d);
             var entry := first + [WhileNote(cnd, ls, b, d)];
             Fits(p, |b.src.lines|, entry) && Fits(p, |b.src.lines|, entry + second) &&
             |WhileEntry(cnd, ls, b).src.lines| == |b.src.lines| + |entry| &&
             |WhileHead(cnd, ls, b).src.lines| == |b.src.lines| + |entry + second|
    ensures var b3, b5 := WhileEntry(cnd, ls, b), WhileHead(cnd, ls, b);
            Stands(p, |b3.src.lines|, b3.scope, d) && Stands(p, |b5.src.lines|, b5.scope, d + 1) &&
            Stands(p, |b5.src.lines|, b.scope, d)
  {
    hide Stands, Fits, WhileEntry, WhileHead, ReadLines, WhileNote, LowerReads;
    var second := ReadLines(cnd.first, ls, WhileEntry(cnd, ls, b), d);
    var entry := ReadLines(cnd.first, ls, BeforeReads(b), d) + [WhileNote(cnd, ls, b, d)];
    ReadsDeep(cnd.first, ls, BeforeReads(b), d);
    ReadsDeep(cnd.first, ls, WhileEntry(cnd, ls, b), d);
    WhileDeep(cnd, ls, b, d);
    LoopScopes(cnd, ls, b);
    LevelLines(p, |b.src.lines|, b.scope, d, entry, second);
  }

  lemma LoopScopes(cnd: Cond, ls: Locals, b: Builder)
    ensures WhileEntry(cnd, ls, b).scope == b.scope
    ensures var b5 := WhileHead(cnd, ls, b); b5.scope == Lexical(b.scope, |b5.src.lines| + 1)
  {
    hide WhileEntry, WhileHead, LowerReads, ReadsCode;
    EntryLocs(cnd, ls, b);
    HeaderLocs(cnd, ls, b);
  }

  /** Lines of one depth, in two runs. */
  lemma LevelLines(p: Page, n: nat, s: Scope, d: nat, xs: seq<Note>, ys: seq<Note>)
    requires Stands(p, n, s, d) && Fits(p, n, xs) && Fits(p, n, xs + ys) && xs != []
    requires (forall i :: 0 <= i < |xs| ==> xs[i].depth == d) && forall i :: 0 <= i < |ys| ==> ys[i].depth == d
    ensures Stands(p, n + |xs|, s, d) && Stands(p, n + |xs + ys|, s, d)
    ensures Stands(p, n + |xs + ys|, Lexical(s, n + |xs + ys| + 1), d + 1)
  {
    hide Stands, Fits;
    StandsOn(p, n, s, d, xs);
    StandsOn(p, n, s, d, xs + ys);
    StandsInLast(p, n, s, d, xs + ys);
  }

  lemma NonEmpty(cnd: Cond, ls: Locals, b: Builder, d: nat, x: Option<Mark>, y: Option<Mark>)
    ensures EntrySaid(cnd, ls, b, d, x) != [] && HeaderSaid(cnd, ls, b, d, y) != []
  {
    hide LowerReads, ReadsSaid, Emitted;
  }

  lemma AnyStart(marks: seq<Option<Mark>>, cur: Option<Mark>)
    requires marks != []
    ensures Latest(marks, cur) == Latest(marks, None)
  {}

  lemma LoopParts(cnd: Cond, body: Code, next: Code, ls: Locals, b: Builder)
    ensures var b3, b5 := WhileEntry(cnd, ls, b), WhileHead(cnd, ls, b);
            var b6 := Lower(body, ls, b5);
            TraceWhile(cnd, body, next, ls, b) ==
            EntryIns(cnd, ls, b) + HeaderIns(cnd, ls, b, b3) +
              (Trace(body, ls, b5) + CloseIns(b6, ContinueOf(b), b.scope)) +
            Trace(next, ls, WhileEnd(b, b6))
  {
    hide Trace, Lower, WhileEntry, WhileTest, WhileEnd, EntryIns, HeaderIns, CloseIns;
  }

  // ----- what a loop's header records -----

  /** After a condition's reads the current location is the last load's line, if there is one. */
  lemma {:induction false} ReadsRecord(rds: seq<Read>, ls: Locals, b: Builder, d: nat, cur: Option<Mark>)
    ensures var own := ReadLines(rds, ls, b, d);
            |own| == Loads(rds) && Latest(ReadsSaid(rds, ls, b, d, cur), cur) == if own == [] then cur
              else At(own[|own| - 1])
    decreases |rds|
  {
    hide LowerRead, ReadLocals, ActionCode, LineText, EraseE, Latest;
    if rds == [] {
      NoneSaid(cur);
    } else {
      var a, ls1, b1 := ReadValue(rds[0]), ReadLocals(rds[0], ls, b), LowerRead(rds[0], ls, b);
      var first := ActionSaid(a, ls, b, d, cur);
      ActionLocs(a, ls, b);
      ReadRecords(a, ls, b, d, cur);
      ReadsRecord(rds[1..], ls1, b1, d, Latest(first, cur));
      LatestAppend(first, ReadsSaid(rds[1..], ls1, b1, d, Latest(first, cur)), cur);
    }
  }

  lemma ReadRecords(a: Action, ls: Locals, b: Builder, d: nat, cur: Option<Mark>)
    requires a.ReadValue? && (a.rd.RLoad? ==> |ActionCode(a, ls, b.cfg.nextReg).ops| > 0)
    ensures Latest(ActionSaid(a, ls, b, d, cur), cur) ==
            if a.rd.RLoad? then At(ActionNote(a, ls, b, d).value) else cur
  {
    hide ActionCode, LineText, EraseE;
  }

  /** A header's instructions before the first load, and all of them when the condition only gets, record the
      second line of the loop: without loads the line after the header's own, with one load the header's
      own, with more the second load's. The branch into the loop and the test record the last load
      of their own copy of the condition. */
  lemma HeaderRecords(cnd: Cond, body: Code, ls: Locals, b: Builder, d: nat)
    ensures var m, ahead := Loads(cnd.first), Ahead(cnd, body, ls, b, d);
            var first, second := ReadLines(cnd.first, ls, BeforeReads(b), d),
              ReadLines(cnd.first, ls, WhileEntry(cnd, ls, b), d);
            var after := LinesOf(body, ls, WhileHead(cnd, ls, b), d + 1) + [Note(d, "}")];
            var entry := EntrySaid(cnd, ls, b, d, ahead);
            var header := HeaderSaid(cnd, ls, b, d, Latest(entry, None));
            |first| == |second| == m &&
            ahead == (if m == 0 then Some(Mark(after[0], true))
                      else if m == 1 then At(WhileNote(cnd, ls, b, d)) else At(first[1])) &&
            Latest(entry, None) == (if m == 0 then ahead else At(first[m - 1])) &&
            Latest(header, None) == (if m == 0 then ahead else At(second[m - 1]))
  {
    hide ReadLines, LinesOf, LowerReads, ReadsSaid, Emitted, WhileEntry, WhileHead, WhileNote;
    var ahead := Ahead(cnd, body, ls, b, d);
    var entry := EntrySaid(cnd, ls, b, d, ahead);
    ReadsRecord(cnd.first, ls, BeforeReads(b), d, ahead);
    ReadsRecord(cnd.first, ls, WhileEntry(cnd, ls, b), d, Latest(entry, None));
  }

  // ----- whole programs -----

  /** The finished listing, as function k sees it. */
  function PageOf(src: seq<FnDef>, k: nat): Page
    requires k < |src|
  {
    Page(ProgramNotes(src, |src|), src[k].name, RoundTrip.HeaderOf(src[k]))
  }

  /** What each instruction of function k is said to be recorded against. */
  function MarksOf(src: seq<FnDef>, k: nat): seq<Option<Mark>>
    requires k < |src|
  {
    Said(src[k].body, Params(|src[k].params|), BeginFunction(src[k], Before(src, k)), 1, None)
  }

  lemma {:induction false} NotesGrow(src: seq<FnDef>, j: nat, k: nat)
    requires j <= k <= |src|
    ensures ProgramNotes(src, j) <= ProgramNotes(src, k)
    decreases k
  {
    hide FunctionNotes;
    if j < k {
      NotesGrow(src, j, k - 1);
    }
  }

  /** Where function k has its lines, and the scope its lambda starts in. */
  lemma FunctionFits(src: seq<FnDef>, k: nat)
    requires k < |src|
    ensures var p, b := PageOf(src, k), BeginFunction(src[k], Before(src, k));
            b.src.indent == 4 && b.cfg.loc == NoLoc && Stands(p, |b.src.lines|, b.scope, 1) &&
            Fits(p, |b.src.lines|, LinesOf(src[k].body, Params(|src[k].params|), b, 1))
  {
    hide LinesOf, Params, RoundTrip.HeaderOf, Render, Stands, Fits, ProgramNotes, FunctionNotes, Before;
    var p, b := PageOf(src, k), BeginFunction(src[k], Before(src, k));
    var n := |ProgramNotes(src, k)|;
    DebugLines.NothingLeftOver(src, k);
    ProgramAdds(src, k);
    PageBegins(src, k);
    StartScope(p, n, b);
  }

  /** The first line of function k, and those of its lambda. */
  lemma PageBegins(src: seq<FnDef>, k: nat)
    requires k < |src|
    ensures var p, n := PageOf(src, k), |ProgramNotes(src, k)|;
            n < |p.notes| && p.notes[n] == Note(0, p.header) &&
            Fits(p, n + 1, LinesOf(src[k].body, Params(|src[k].params|), BeginFunction(src[k], Before(src, k)), 1))
  {
    hide LinesOf, Params, RoundTrip.HeaderOf, BeginFunction, Before, ProgramNotes, Fits;
    NotesGrow(src, k + 1, |src|);
    NotesNext(src, k);
    var inner := LinesOf(src[k].body, Params(|src[k].params|), BeginFunction(src[k], Before(src, k)), 1);
    InTheMiddle(PageOf(src, k), ProgramNotes(src, k), Note(0, RoundTrip.HeaderOf(src[k])), inner, [Note(0, "}")]);
  }

  lemma NotesNext(src: seq<FnDef>, k: nat)
    requires k < |src|
    ensures ProgramNotes(src, k + 1) == ProgramNotes(src, k) + FunctionNotes(src, k)
  {
    hide FunctionNotes;
  }

  lemma InTheMiddle(p: Page, before: seq<Note>, x: Note, inner: seq<Note>, after: seq<Note>)
    requires before + ([x] + inner + after) <= p.notes
    ensures |before| < |p.notes| && p.notes[|before|] == x && Fits(p, |before| + 1, inner)
  {
    var n, all := |before|, before + ([x] + inner + after);
    assert all[n] == x && all[n + 1..n + 1 + |inner|] == inner;
    assert p.notes[..|all|] == all;
    assert p.notes[n + 1..n + 1 + |inner|] == all[n + 1..n + 1 + |inner|];
  }

  lemma StartScope(p: Page, n: nat, b: Builder)
    requires n < |p.notes| && p.notes[n] == Note(0, p.header) && |b.src.lines| == n + 1
    requires b.scope == FnScope(FileScope, p.name, n + 1)
    ensures Stands(p, n + 1, b.scope, 1)
  {
    var notes := p.notes[..n + 1];
    assert notes[|notes| - 1] == p.notes[n];
  }

  lemma BodyNamed(src: seq<FnDef>, k: nat)
    requires k < |src|
    ensures AllNamed(PageOf(src, k),
            Trace(src[k].body, Params(|src[k].params|), BeginFunction(src[k], Before(src, k))), MarksOf(src, k))
  {
    hide Lower, Trace, Said, AllNamed, Stands, Fits, PageOf, BeginFunction;
    var b := BeginFunction(src[k], Before(src, k));
    FunctionFits(src, k);
    TraceNamed(PageOf(src, k), src[k].body, Params(|src[k].params|), b, 1, None);
  }

  /** For every program whose names contain no newline, every function, and every instruction of it but
      the allocas at its head: the line number the instruction is recorded with is the number, in the
      text of the finished listing, of a line with its statement's text, indented four times the
      statement's nesting depth. Without a number are only the gets a function makes before its first
      located statement. */
  lemma InstructionNamesLine(src: seq<FnDef>, k: nat, i: nat)
    requires k < |src| && LoopOk(src[k].body, false) && i < |Log(BodyOf(src, k).cfg)|
    requires CleanProgram(src)
    ensures var text, loc := SplitLines(Join(Before(src, |src|).src.lines)), Log(BodyOf(src, k).cfg)[i].loc;
            |MarksOf(src, k)| == |Log(BodyOf(src, k).cfg)| &&
            match MarksOf(src, k)[i]
            case None => loc == NoLoc
            case Some(m) =>
              1 <= Emission.LineAt(loc) <= |text| &&
              text[Emission.LineAt(loc) - 1] == Spaces(4 * m.note.depth) + m.note.text
  {
    hide Log, Trace, BodyOf, MarksOf, SplitLines, Join, LoopOk, Finished.BodyFacts, InScope, ProgramNotes, CleanProgram;
    var m := Finished.BodyInv(src, k);
    BodyNamed(src, k);
    ListingIs(src);
  }

  /** And the scope it is recorded with is that of the block its statement stands in, read off the indentation
      of the listing: the function's own, with its name and the number of its first line, and inside it one
      lexical block for each lambda around the statement, with the number of the block's first line. The
      branch that closes a body, recorded against the closing line, is outside the body; so is a
      loop's header, also where it records the first line inside. */
  lemma InstructionScope(src: seq<FnDef>, k: nat, i: nat)
    requires k < |src| && LoopOk(src[k].body, false) && i < |Log(BodyOf(src, k).cfg)|
    ensures var loc := Log(BodyOf(src, k).cfg)[i].loc;
            |MarksOf(src, k)| == |Log(BodyOf(src, k).cfg)| &&
            match MarksOf(src, k)[i]
            case None => loc == NoLoc
            case Some(m) =>
              loc.Loc? && loc.line >= 1 && InScope(PageOf(src, k), loc.scope, if m.ahead then loc.line - 1
                else loc.line)
  {
    hide Log, Trace, BodyOf, MarksOf, LoopOk, Finished.BodyFacts, InScope, PageOf;
    var m := Finished.BodyInv(src, k);
    BodyNamed(src, k);
  }
}
