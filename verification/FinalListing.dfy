/** The finished listing, line by line, and the line that each instruction of the program names in it. */
module FinalListing {
  import opened Types
  import opened Source
  import opened Ir
  import opened Text
  import opened Lowering
  import opened Listings
  import opened LineNames
  import opened OneLine
  import DebugLines

  // ----- the lines that are added -----

  lemma AddsTwice(b: Builder, m: Builder, h: Builder, xs: seq<Note>, ys: seq<Note>, i: nat, j: nat)
    requires AddsLines(b, m, xs, i) && AddsLines(m, h, ys, j)
    ensures AddsLines(b, h, xs + ys, j)
  {
    RenderAppend(xs, ys);
  }

  lemma AddsNothing(b: Builder, d: nat)
    requires b.src.indent == 4 * d
    ensures AddsLines(b, b, [], d)
  {
    assert b.src.lines + [] == b.src.lines;
  }

  lemma AddsOne(b: Builder, h: Builder, n: Note, d: nat)
    requires h.src.lines == b.src.lines + [Rendered(n)] && h.src.indent == 4 * d
    ensures AddsLines(b, h, [n], d)
  {
    assert Render([n]) == [Rendered(n)];
  }

  lemma ActionAdds(a: Action, ls: Locals, b: Builder, d: nat)
    requires b.src.indent == 4 * d
    ensures AddsLines(b, LowerAction(a, ls, b), Printed(ActionNote(a, ls, b, d)), d)
  {
    hide LowerAction, LineText, EraseE, TyName, ValName, ValNames, VarNames, VarOf, AddsLines;
    ActionPrints(a, ls, b);
    if a.ReadValue? && a.rd.RGet? {
      SameLines(b, LowerAction(a, ls, b), d);
    } else {
      AddsOne(b, LowerAction(a, ls, b), ActionNote(a, ls, b, d).value, d);
    }
  }

  lemma SameLines(b: Builder, h: Builder, d: nat)
    requires h.src == b.src && b.src.indent == 4 * d
    ensures AddsLines(b, h, [], d)
  {
    AddsNothing(b, d);
  }

  lemma CallAdds(fn: FnRef, args: seq<Expr>, ls: Locals, b: Builder, d: nat)
    requires b.src.indent == 4 * d
    ensures AddsLines(b, LowerCall(fn, args, ls, b), [CallNote(fn, args, ls, d)], d)
  {
    hide ShowArgs, ShowList, EmittedArgs, AddsLines;
    ShowArgsErased(args, ls.vals);
    AddsOne(b, LowerCall(fn, args, ls, b), CallNote(fn, args, ls, d), d);
  }

  lemma ExitAddsLine(b: Builder, text: string, ops: seq<Op>, n: nat, d: nat)
    requires b.src.indent == 4 * d
    ensures AddsLines(b, Exit(b, text, ops, n), [Note(d, text)], d)
  {
    AddsOne(b, Exit(b, text, ops, n), Note(d, text), d);
  }

  lemma {:induction false} ReadsAdd(rds: seq<Read>, ls: Locals, b: Builder, d: nat)
    requires b.src.indent == 4 * d
    ensures AddsLines(b, LowerReads(rds, ls, b).0, ReadLines(rds, ls, b, d), d)
    decreases |rds|
  {
    hide AddsLines, LowerRead, ReadLocals, ActionNote;
    if rds == [] {
      AddsNothing(b, d);
    } else {
      var ls1, b1 := ReadLocals(rds[0], ls, b), LowerRead(rds[0], ls, b);
      ActionAdds(ReadValue(rds[0]), ls, b, d);
      AddsIndent(b, b1, Printed(ActionNote(ReadValue(rds[0]), ls, b, d)), d);
      ReadsAdd(rds[1..], ls1, b1, d);
      AddsTwice(b, b1, LowerReads(rds, ls, b).0, Printed(ActionNote(ReadValue(rds[0]), ls, b, d)),
          ReadLines(rds[1..], ls1, b1, d), d, d);
    }
  }

  lemma AddsIndent(b: Builder, h: Builder, notes: seq<Note>, d: nat)
    requires AddsLines(b, h, notes, d)
    ensures h.src.indent == 4 * d && b.src.lines <= h.src.lines
  {}

  lemma IfHeadAdds(e: Expr, ls: Locals, b: Builder, d: nat)
    requires b.src.indent == 4 * d
    ensures AddsLines(b, IfHead(e, ls, b), [IfNote(e, ls, d)], d + 1) &&
            AddsLines(b, IfThenHead(e, ls, b), [IfNote(e, ls, d)], d + 1)
  {
    hide IfHead, IfThenHead, ShowEx, EraseE, ValNames, AddsLines;
    IfHeads(e, ls, b);
    AddsOne(b, IfHead(e, ls, b), IfNote(e, ls, d), d + 1);
    AddsOne(b, IfThenHead(e, ls, b), IfNote(e, ls, d), d + 1);
  }

  lemma TailAdds(b: Builder, b2: Builder, d: nat)
    requires b.src.indent == 4 * d && b2.src.indent == 4 * (d + 1)
    ensures AddsLines(b2, IfElse(b, b2), [Note(d, "} else {")], d + 1)
    ensures AddsLines(b2, IfEnd(b, b2), [Note(d, "}")], d) && AddsLines(b2, IfThenEnd(b, b2), [Note(d, "}")], d)
    ensures AddsLines(b2, WhileEnd(b, b2), [Note(d, "}")], d)
  {
    hide IfElse, IfEnd, IfThenEnd, WhileEnd, AddsLines;
    IfTails(b, b2);
    AddsOne(b2, IfElse(b, b2), Note(d, "} else {"), d + 1);
    AddsOne(b2, IfEnd(b, b2), Note(d, "}"), d);
    AddsOne(b2, IfThenEnd(b, b2), Note(d, "}"), d);
    AddsOne(b2, WhileEnd(b, b2), Note(d, "}"), d);
  }

  lemma EntryAdds(cnd: Cond, ls: Locals, b: Builder, d: nat)
    requires b.src.indent == 4 * d
    ensures AddsLines(b, WhileEntry(cnd, ls, b), ReadLines(cnd.first, ls, BeforeReads(b), d) +
            [WhileNote(cnd, ls, b, d)], d)
  {
    hide ReadLines, LowerReads, Show, ShowEx, EraseE, ValNames, AddsLines;
    var (b1, ls1) := LowerReads(cnd.first, ls, BeforeReads(b));
    var b2 := AddLine(b1, "while (" + Show(cnd.test, ls1.vals) + ") {");
    ReadsAdd(cnd.first, ls, BeforeReads(b), d);
    AddsIndent(BeforeReads(b), b1, ReadLines(cnd.first, ls, BeforeReads(b), d), d);
    ShowErased(cnd.test, ls1.vals);
    AddsOne(b1, b2, WhileNote(cnd, ls, b, d), d);
    AddsTwice(BeforeReads(b), b1, b2, ReadLines(cnd.first, ls, BeforeReads(b), d), [WhileNote(cnd, ls, b, d)], d, d);
    SameSource(BeforeReads(b), b2, b, WhileEntry(cnd, ls, b), ReadLines(cnd.first, ls, BeforeReads(b), d) +
        [WhileNote(cnd, ls, b, d)], d);
  }

  lemma SameSource(b: Builder, h: Builder, b': Builder, h': Builder, notes: seq<Note>, d: nat)
    requires AddsLines(b, h, notes, d) && b'.src == b.src && h'.src == h.src
    ensures AddsLines(b', h', notes, d)
  {}

  lemma HeadAdds(cnd: Cond, ls: Locals, b: Builder, d: nat)
    requires b.src.indent == 4 * d
    ensures AddsLines(WhileEntry(cnd, ls, b), WhileHead(cnd, ls, b),
            ReadLines(cnd.first, ls, WhileEntry(cnd, ls, b), d), d + 1)
  {
    hide ReadLines, LowerReads, WhileEntry, Emitted, Render;
    var b3 := WhileEntry(cnd, ls, b);
    EntryAdds(cnd, ls, b, d);
    ReadsAdd(cnd.first, ls, b3, d);
  }

  /** What a lambda adds, and that it puts the indentation back. */
  lemma {:induction false} LowerAdds(c: Code, ls: Locals, b: Builder, d: nat)
    requires b.src.indent == 4 * d
    ensures AddsLines(b, Lower(c, ls, b), LinesOf(c, ls, b, d), d)
    decreases c, 1
  {
    hide AddsLines, LowerAction, LowerCall, LowerIf, LowerIfThen, LowerWhile, Exit, LineText, Show, LoopLines, IfLines,
         IfNote, ActionNote, EraseE;
    match c
    case Done => AddsNothing(b, d);
    case Break =>
      AddsNothing(b, d);
      if b.cfg.loop.InLoop? {
        ExitAddsLine(b, LineText(SBreak), [IBr(b.cfg.loop.breakBlock)], b.cfg.nextReg, d);
        PlainText();
      }
    case Continue =>
      AddsNothing(b, d);
      if b.cfg.loop.InLoop? {
        ExitAddsLine(b, LineText(SContinue), [IBr(b.cfg.loop.continueBlock)], b.cfg.nextReg, d);
        PlainText();
      }
    case Return(e) =>
      var ec := Emitted(e, ls.vals, b.cfg.nextReg);
      ReturnText(e, ls, d);
      ExitAddsLine(b, ReturnNote(e, ls, d).text, ec.ops + [IRet(Some(ec.res))], ec.next, d);
    case ReturnVoid =>
      PlainText();
      ExitAddsLine(b, LineText(SReturnVoid), [IRet(None)], b.cfg.nextReg, d);
    case Act(a, next) =>
      var ls1, b1 := ActionLocals(a, ls, b), LowerAction(a, ls, b);
      ActionAdds(a, ls, b, d);
      AddsIndent(b, b1, Printed(ActionNote(a, ls, b, d)), d);
      LowerAdds(next, ls1, b1, d);
      AddsTwice(b, b1, Lower(next, ls1, b1), Printed(ActionNote(a, ls, b, d)), LinesOf(next, ls1, b1, d), d, d);
    case Call(fn, args, next) =>
      var ls1, b1 := CallLocals(fn, args, ls, b), LowerCall(fn, args, ls, b);
      CallAdds(fn, args, ls, b, d);
      AddsIndent(b, b1, [CallNote(fn, args, ls, d)], d);
      LowerAdds(next, ls1, b1, d);
      AddsTwice(b, b1, Lower(next, ls1, b1), [CallNote(fn, args, ls, d)], LinesOf(next, ls1, b1, d), d, d);
    case If(e, t, f, next) => IfAdds(e, t, f, next, ls, b, d);
    case IfThen(e, t, next) => IfThenAdds(e, t, next, ls, b, d);
    case While(cnd, body, next) =>
      LoopAdds(cnd, body, next, ls, b, d);
      var b7 := WhileEnd(b, Lower(body, ls, WhileHead(cnd, ls, b)));
      AddsIndent(b, b7, LoopLines(cnd, body, ls, b, d), d);
      LowerAdds(next, ls, b7, d);
      AddsTwice(b, b7, Lower(next, ls, b7), LoopLines(cnd, body, ls, b, d), LinesOf(next, ls, b7, d), d, d);
      LoopIs(cnd, body, next, ls, b);
  }

  lemma LoopIs(cnd: Cond, body: Code, next: Code, ls: Locals, b: Builder)
    ensures Lower(While(cnd, body, next), ls, b) == Lower(next, ls, WhileEnd(b, Lower(body, ls, WhileHead(cnd, ls, b))))
  {
    assert Lower(While(cnd, body, next), ls, b) == LowerWhile(cnd, body, next, ls, b);
  }

  lemma PlainText()
    ensures LineText(SBreak) == "break;" && LineText(SContinue) == "continue;" && LineText(SReturnVoid) == "return;"
  {}

  lemma ReturnText(e: Expr, ls: Locals, d: nat)
    ensures ReturnNote(e, ls, d) == Note(d, "return " + Show(e, ls.vals) + ";")
  {
    ShowErased(e, ls.vals);
  }

  lemma {:induction false} ArmAdds(whole: Code, arm: Code, ls: Locals, b: Builder, b1: Builder, h: Builder, close: Note,
      d: nat, d1: nat)
    requires arm < whole && b1.src.indent == 4 * (d + 1)
    requires AddsLines(Lower(arm, ls, b1), h, [close], d1)
    ensures AddsLines(b1, h, LinesOf(arm, ls, b1, d + 1) + [close], d1)
    decreases whole, 0, 0
  {
    hide AddsLines, Lower, LinesOf;
    LowerAdds(arm, ls, b1, d + 1);
    AddsTwice(b1, Lower(arm, ls, b1), h, LinesOf(arm, ls, b1, d + 1), [close], d + 1, d1);
  }

  /** A body leaves the indentation it began with. */
  lemma {:induction false} ArmIndent(whole: Code, arm: Code, ls: Locals, b1: Builder, d: nat)
    requires arm < whole && b1.src.indent == 4 * d
    ensures Lower(arm, ls, b1).src.indent == 4 * d
    decreases whole, 0, 0
  {
    hide AddsLines, Lower, LinesOf;
    LowerAdds(arm, ls, b1, d);
    AddsIndent(b1, Lower(arm, ls, b1), LinesOf(arm, ls, b1, d), d);
  }

  lemma {:induction false} IfAdds(e: Expr, t: Code, f: Code, next: Code, ls: Locals, b: Builder, d: nat)
    requires b.src.indent == 4 * d
    ensures AddsLines(b, LowerIf(e, t, f, next, ls, b), IfLines(e, t, f, next, ls, b, d), d)
    decreases If(e, t, f, next), 0, 1
  {
    hide AddsLines, Lower, LinesOf, IfHead, IfElse, IfEnd, IfNote;
    var whole, b1 := If(e, t, f, next), IfHead(e, ls, b);
    var b2 := Lower(t, ls, b1);
    var b3 := IfElse(b, b2);
    var b4 := Lower(f, ls, b3);
    var b5 := IfEnd(b, b4);
    var head, yes, no, rest := [IfNote(e, ls, d)], LinesOf(t, ls, b1, d + 1), LinesOf(f, ls, b3, d + 1),
        LinesOf(next, ls, b5, d);
    var mid, end := [Note(d, "} else {")], [Note(d, "}")];
    IfHeadAdds(e, ls, b, d);
    AddsIndent(b, b1, head, d + 1);
    ArmIndent(whole, t, ls, b1, d + 1);
    TailAdds(b, b2, d);
    ArmAdds(whole, t, ls, b, b1, b3, mid[0], d, d + 1);
    AddsIndent(b2, b3, mid, d + 1);
    ArmIndent(whole, f, ls, b3, d + 1);
    TailAdds(b, b4, d);
    ArmAdds(whole, f, ls, b, b3, b5, end[0], d, d);
    AddsIndent(b4, b5, end, d);
    LowerAdds(next, ls, b5, d);
    AddsTwice(b, b1, b3, head, yes + mid, d + 1, d + 1);
    AddsTwice(b, b3, b5, head + (yes + mid), no + end, d + 1, d);
    AddsTwice(b, b5, Lower(next, ls, b5), head + (yes + mid) + (no + end), rest, d, d);
    Regroup(head, yes, mid, no, end, rest);
  }

  lemma Regroup(x0: seq<Note>, x1: seq<Note>, x2: seq<Note>, x3: seq<Note>, x4: seq<Note>, x5: seq<Note>)
    ensures x0 + (x1 + x2) + (x3 + x4) + x5 == x0 + x1 + x2 + x3 + x4 + x5
    ensures x0 + (x1 + x2) + x3 == x0 + x1 + x2 + x3
  {}

  lemma {:induction false} IfThenAdds(e: Expr, t: Code, next: Code, ls: Locals, b: Builder, d: nat)
    requires b.src.indent == 4 * d
    ensures AddsLines(b, LowerIfThen(e, t, next, ls, b), LinesOf(IfThen(e, t, next), ls, b, d), d)
    decreases IfThen(e, t, next), 0, 1
  {
    hide AddsLines, Lower, IfThenHead, IfThenEnd, IfNote;
    var whole, b1 := IfThen(e, t, next), IfThenHead(e, ls, b);
    var b2 := Lower(t, ls, b1);
    var b3 := IfThenEnd(b, b2);
    var head, yes, end, rest := [IfNote(e, ls, d)], LinesOf(t, ls, b1, d + 1), [Note(d, "}")], LinesOf(next, ls, b3, d);
    IfHeadAdds(e, ls, b, d);
    AddsIndent(b, b1, head, d + 1);
    ArmIndent(whole, t, ls, b1, d + 1);
    TailAdds(b, b2, d);
    ArmAdds(whole, t, ls, b, b1, b3, end[0], d, d);
    AddsIndent(b2, b3, end, d);
    LowerAdds(next, ls, b3, d);
    AddsTwice(b, b1, b3, head, yes + end, d + 1, d);
    AddsTwice(b, b3, Lower(next, ls, b3), head + (yes + end), rest, d, d);
    Regroup(head, yes, end, rest, [], []);
  }

  lemma {:induction false} LoopAdds(cnd: Cond, body: Code, next: Code, ls: Locals, b: Builder, d: nat)
    requires b.src.indent == 4 * d
    ensures AddsLines(b, WhileEnd(b, Lower(body, ls, WhileHead(cnd, ls, b))), LoopLines(cnd, body, ls, b, d), d)
    decreases While(cnd, body, next), 0, 1
  {
    hide AddsLines, Lower, LinesOf, WhileEntry, WhileHead, WhileEnd, ReadLines, WhileNote;
    var whole, b3, b5 := While(cnd, body, next), WhileEntry(cnd, ls, b), WhileHead(cnd, ls, b);
    var b6 := Lower(body, ls, b5);
    var entry, header := ReadLines(cnd.first, ls, BeforeReads(b), d) + [WhileNote(cnd, ls, b, d)],
        ReadLines(cnd.first, ls, b3, d);
    var inner, end := LinesOf(body, ls, b5, d + 1), [Note(d, "}")];
    EntryAdds(cnd, ls, b, d);
    HeadAdds(cnd, ls, b, d);
    AddsIndent(b3, b5, header, d + 1);
    ArmIndent(whole, body, ls, b5, d + 1);
    TailAdds(b, b6, d);
    ArmAdds(whole, body, ls, b, b5, WhileEnd(b, b6), end[0], d, d);
    AddsTwice(b, b3, b5, entry, header, d, d + 1);
    AddsTwice(b, b5, WhileEnd(b, b6), entry + header, inner + end, d + 1, d);
    assert entry + header + (inner + end) == entry + header + inner + end;
  }

  // ----- whole programs -----

  function FunctionNotes(fns: seq<FnDef>, k: nat): seq<Note>
    requires k < |fns|
  {
    [Note(0, RoundTrip.HeaderOf(fns[k]))] +
    LinesOf(fns[k].body, Params(|fns[k].params|), BeginFunction(fns[k], Before(fns, k)), 1) + [Note(0, "}")]
  }

  function ProgramNotes(fns: seq<FnDef>, k: nat): seq<Note>
    requires k <= |fns|
  {
    if k == 0 then [] else ProgramNotes(fns, k - 1) + FunctionNotes(fns, k - 1)
  }

  lemma BeginAdds(f: FnDef, b: Builder)
    requires b.src.indent == 0
    ensures AddsLines(b, BeginFunction(f, b), [Note(0, RoundTrip.HeaderOf(f))], 1)
  {
    hide ParamText, TyName, AddsLines;
    AddsOne(b, BeginFunction(f, b), Note(0, RoundTrip.HeaderOf(f)), 1);
  }

  lemma EndAdds(parent: Scope, b: Builder)
    requires b.src.indent == 4
    ensures AddsLines(b, EndFunction(parent, b), [Note(0, "}")], 0)
  {
    AddsOne(b, EndFunction(parent, b), Note(0, "}"), 0);
  }

  lemma FunctionAdds(fns: seq<FnDef>, k: nat)
    requires k < |fns|
    ensures AddsLines(Before(fns, k), Before(fns, k + 1), FunctionNotes(fns, k), 0)
  {
    hide AddsLines, Lower, LinesOf, BeginFunction, EndFunction;
    var f, b := fns[k], Before(fns, k);
    var ls, b1 := Params(|f.params|), BeginFunction(f, b);
    var head, inner, end := [Note(0, RoundTrip.HeaderOf(f))], LinesOf(f.body, ls, b1, 1), [Note(0, "}")];
    DebugLines.NothingLeftOver(fns, k);
    BeginAdds(f, b);
    AddsIndent(b, b1, head, 1);
    LowerAdds(f.body, ls, b1, 1);
    AddsIndent(b1, BodyOf(fns, k), inner, 1);
    EndAdds(b.scope, BodyOf(fns, k));
    AddsTwice(b, b1, BodyOf(fns, k), head, inner, 1, 1);
    AddsTwice(b, BodyOf(fns, k), Before(fns, k + 1), head + inner, end, 1, 0);
  }

  lemma {:induction false} ProgramAdds(fns: seq<FnDef>, k: nat)
    requires k <= |fns|
    ensures Before(fns, k).src.lines == Render(ProgramNotes(fns, k))
    decreases k
  {
    hide FunctionNotes, BodyOf, EndFunction;
    if k > 0 {
      ProgramAdds(fns, k - 1);
      FunctionAdds(fns, k - 1);
      RenderAppend(ProgramNotes(fns, k - 1), FunctionNotes(fns, k - 1));
    }
  }

  lemma StartClean(f: FnDef)
    ensures CleanLocals(Params(|f.params|))
  {
    hide ArgName, Clean;
    forall i | 0 <= i < |f.params|
      ensures Clean(ValNames(Params(|f.params|).vals)[i])
    {
      LoadClean(i);
    }
  }

  lemma HeaderClean(f: FnDef)
    ensures Clean(RoundTrip.HeaderOf(f)) <==> Clean(f.name)
  {
    hide ParamText, TyName;
    RoundTrip.ParamsOneLine(f.params, 0);
    TypeClean(f.ret);
  }

  /** A function's lines are whole exactly when the names it gives are. */
  lemma FunctionClean(fns: seq<FnDef>, k: nat)
    requires k < |fns|
    ensures CleanNotes(FunctionNotes(fns, k)) <==> Clean(fns[k].name) && CleanNames(fns[k].body)
  {
    hide CleanNotes, LinesOf, BeginFunction, Clean, CleanNames, RoundTrip.HeaderOf;
    var f, ls, b := fns[k], Params(|fns[k].params|), BeginFunction(fns[k], Before(fns, k));
    var head, inner, end := [Note(0, RoundTrip.HeaderOf(f))], LinesOf(f.body, ls, b, 1), [Note(0, "}")];
    HeaderClean(f);
    PlainClean(0);
    OneClean(head[0]);
    OneClean(end[0]);
    JoinClean(head, inner);
    JoinClean(head + inner, end);
    StartClean(f);
    if CleanNames(f.body) {
      LinesClean(f.body, ls, b, 1);
    }
    if CleanNotes(inner) {
      LinesGiveNames(f.body, ls, b, 1);
    }
  }

  lemma {:induction false} ProgramClean(fns: seq<FnDef>, k: nat)
    requires k <= |fns|
    ensures CleanNotes(ProgramNotes(fns, k)) <==>
            forall i :: 0 <= i < k ==> Clean(fns[i].name) && CleanNames(fns[i].body)
    decreases k
  {
    hide CleanNotes, FunctionNotes, Clean, CleanNames;
    if k == 0 {
      NoneClean();
    } else {
      ProgramClean(fns, k - 1);
      FunctionClean(fns, k - 1);
      JoinClean(ProgramNotes(fns, k - 1), FunctionNotes(fns, k - 1));
    }
  }

  lemma RenderedClean(notes: seq<Note>)
    ensures CleanNotes(notes) <==> forall l :: l in Render(notes) ==> '\n' !in l
  {
    if forall l :: l in Render(notes) ==> '\n' !in l {
      forall i | 0 <= i < |notes|
        ensures Clean(notes[i].text)
      {
        assert Render(notes)[i] in Render(notes);
      }
    }
  }

  /** No line of the finished listing contains a newline exactly when no name given by the program does:
      types, numbers and the names of loads never bring one, and every name is printed somewhere. */
  lemma NamesDecideLines(fns: seq<FnDef>)
    ensures CleanProgram(fns) <==> forall l :: l in Before(fns, |fns|).src.lines ==> '\n' !in l
  {
    hide Render, CleanNotes, Clean, CleanNames, ProgramNotes;
    ProgramAdds(fns, |fns|);
    ProgramClean(fns, |fns|);
    RenderedClean(ProgramNotes(fns, |fns|));
  }

  /** The text of the finished listing, split at newlines, is exactly the program's lines in order, each
      indented four times its nesting depth, if and only if no name the program gives contains a newline.
      Then the number add_line returned for a line is its index there, counted from one. */
  lemma ListingIs(fns: seq<FnDef>)
    ensures SplitLines(Join(Before(fns, |fns|).src.lines)) == Render(ProgramNotes(fns, |fns|)) <==> CleanProgram(fns)
  {
    hide SplitLines, Join, Render, CleanProgram, ProgramNotes;
    ProgramAdds(fns, |fns|);
    LinesAreIndexed(Before(fns, |fns|).src.lines);
    NamesDecideLines(fns);
  }
}
