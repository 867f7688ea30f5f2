/** Debug lines: which listing line each instruction is recorded against, and the bookkeeping that
    every statement and every function puts back as it found it. */
module DebugLines {
  import opened Types
  import opened Source
  import opened Ir
  import opened Text
  import opened Lowering
  import opened Shapes
  import opened Layout
  import opened Structure
  import opened Emission
  import opened Finished

  // ----- lines that go backwards -----

  lemma SortedParts(xs: seq<Ins>, ys: seq<Ins>)
    requires Sorted(xs + ys)
    ensures Sorted(xs) && Sorted(ys)
  {
    forall i, j | 0 <= i < j < |xs|
      ensures LineAt(xs[i].loc) <= LineAt(xs[j].loc)
    {
      assert (xs + ys)[i] == xs[i] && (xs + ys)[j] == xs[j];
    }
    forall i, j | 0 <= i < j < |ys|
      ensures LineAt(ys[i].loc) <= LineAt(ys[j].loc)
    {
      assert (xs + ys)[|xs| + i] == ys[i] && (xs + ys)[|xs| + j] == ys[j];
    }
  }

  /** The first load of a condition is recorded against the next line, one before the header's. */
  lemma {:induction false} LoadBehind(rds: seq<Read>, ls: Locals, b: Builder, i: nat) returns (j: nat)
    requires i < |rds| && rds[i].RLoad?
    ensures j < |ReadsCode(rds, ls, b)| && LineAt(ReadsCode(rds, ls, b)[j].loc) == CurrentLine(b)
    decreases |rds|
  {
    var first := WithLoc(ReadCode(rds[0], ls, b.cfg.nextReg).ops, ReadLoc(rds[0], b));
    if rds[0].RLoad? {
      j := 0;
      LoadEmits(rds[0], ls, b);
    } else {
      j := LoadBehind(rds[1..], ReadLocals(rds[0], ls, b), LowerRead(rds[0], ls, b), i - 1);
      j := j + |first|;
    }
  }

  lemma GetThenLoad(rds: seq<Read>, ls: Locals, b: Builder, i: nat)
    requires 0 < i < |rds| && rds[0].RGet? && rds[0].x < |ls.vars| && rds[i].RLoad? && LineOf(b) == CurrentLine(b) + 1
    ensures !Sorted(ReadsCode(rds, ls, b))
  {
    var ls1, b1 := ReadLocals(rds[0], ls, b), LowerRead(rds[0], ls, b);
    var first := WithLoc(ReadCode(rds[0], ls, b.cfg.nextReg).ops, ReadLoc(rds[0], b));
    LoadEmits(rds[0], ls, b);
    var j := LoadBehind(rds[1..], ls1, b1, i - 1);
    assert ReadsCode(rds, ls, b)[0] == first[0] && ReadsCode(rds, ls, b)[1 + j] == ReadsCode(rds[1..], ls1, b1)[j];
  }

  lemma LoadEmits(rd: Read, ls: Locals, b: Builder)
    ensures rd.RLoad? ==> |ReadCode(rd, ls, b.cfg.nextReg).ops| > 0
    ensures rd.RGet? && rd.x < |ls.vars| ==> |ReadCode(rd, ls, b.cfg.nextReg).ops| == 1
    ensures rd.RGet? && rd.x >= |ls.vars| ==> |ReadCode(rd, ls, b.cfg.nextReg).ops| == 0
  {}

  lemma {:induction false} SortedReads(rds: seq<Read>, ls: Locals, b: Builder)
    requires Sorted(ReadsCode(rds, ls, b)) && LineOf(b) == CurrentLine(b) + 1
    ensures OrderlyReads(rds, |ls.vars|)
    decreases |rds|
  {
    if rds != [] && rds[0].RGet? {
      var ls1, b1 := ReadLocals(rds[0], ls, b), LowerRead(rds[0], ls, b);
      var first := WithLoc(ReadCode(rds[0], ls, b.cfg.nextReg).ops, ReadLoc(rds[0], b));
      LoadEmits(rds[0], ls, b);
      if rds[0].x < |ls.vars| {
        forall i | 0 <= i < |rds|
          ensures rds[i].RGet?
        {
          if rds[i].RLoad? {
            GetThenLoad(rds, ls, b, i);
          }
        }
      } else {
        SortedParts(first, ReadsCode(rds[1..], ls1, b1));
        SortedReads(rds[1..], ls1, b1);
      }
    }
  }

  lemma {:induction false} SortedOrderly(c: Code, ls: Locals, b: Builder)
    requires Sorted(Trace(c, ls, b))
    ensures Orderly(c, |ls.vars|)
    decreases c
  {
    hide Sorted, Lower, OrderlyReads, TestIns, CloseIns, ActionIns, CallIns, IfHead, IfElse, IfEnd, IfThenHead,
         IfThenEnd, WhileEntry, WhileTest, WhileEnd;
    match c
    case Act(a, next) =>
      assert Trace(c, ls, b) == TraceAct(a, next, ls, b);
      SortedParts(ActionIns(a, ls, b), Trace(next, ActionLocals(a, ls, b), LowerAction(a, ls, b)));
      ActionRestores(a, ls, b);
      SortedOrderly(next, ActionLocals(a, ls, b), LowerAction(a, ls, b));
    case Call(fn, args, next) =>
      assert Trace(c, ls, b) == TraceCall(fn, args, next, ls, b);
      SortedParts(CallIns(fn, args, ls, b), Trace(next, CallLocals(fn, args, ls, b), LowerCall(fn, args, ls, b)));
      SortedOrderly(next, CallLocals(fn, args, ls, b), LowerCall(fn, args, ls, b));
    case If(e, t, f, next) =>
      assert Trace(c, ls, b) == TraceIf(e, t, f, next, ls, b);
      SortedIf(c, ls, b);
      SortedOrderly(t, ls, IfHead(e, ls, b));
      SortedOrderly(f, ls, IfElse(b, Lower(t, ls, IfHead(e, ls, b))));
      SortedOrderly(next, ls, IfEnd(b, Lower(f, ls, IfElse(b, Lower(t, ls, IfHead(e, ls, b))))));
    case IfThen(e, t, next) =>
      assert Trace(c, ls, b) == TraceIfThen(e, t, next, ls, b);
      var b1 := IfThenHead(e, ls, b);
      var b2 := Lower(t, ls, b1);
      var head, arm, close, rest := TestIns(e, ls, b, TrueOf(b), MergeOnlyOf(b)), Trace(t, ls, b1),
          CloseIns(b2, MergeOnlyOf(b), b.scope), Trace(next, ls, IfThenEnd(b, b2));
      SortedParts(head + arm + close, rest);
      SortedParts(head + arm, close);
      SortedParts(head, arm);
      SortedOrderly(t, ls, b1);
      SortedOrderly(next, ls, IfThenEnd(b, b2));
    case While(cnd, body, next) =>
      assert Trace(c, ls, b) == TraceWhile(cnd, body, next, ls, b);
      var b3 := WhileEntry(cnd, ls, b);
      var b5 := WhileTest(cnd, ls, b, b3);
      var b6 := Lower(body, ls, b5);
      var entry, header, inner, close, rest := EntryIns(cnd, ls, b), HeaderIns(cnd, ls, b, b3), Trace(body, ls, b5),
          CloseIns(b6, ContinueOf(b), b.scope), Trace(next, ls, WhileEnd(b, b6));
      SortedParts(entry + header + inner + close, rest);
      SortedParts(entry + header + inner, close);
      SortedParts(entry + header, inner);
      SortedParts(entry, header);
      SortedEntry(cnd, ls, b);
      SortedOrderly(body, ls, b5);
      SortedOrderly(next, ls, WhileEnd(b, b6));
    case _ =>
  }

  lemma SortedIf(c: Code, ls: Locals, b: Builder)
    requires c.If? && Sorted(TraceIf(c.test, c.yes, c.no, c.next, ls, b))
    ensures var b1 := IfHead(c.test, ls, b);
            var b3 := IfElse(b, Lower(c.yes, ls, b1));
            Sorted(Trace(c.yes, ls, b1)) && Sorted(Trace(c.no, ls, b3)) &&
            Sorted(Trace(c.next, ls, IfEnd(b, Lower(c.no, ls, b3))))
  {
    hide Sorted, Trace, Lower, IfHead, IfElse, IfEnd, TestIns, CloseIns;
    var b1 := IfHead(c.test, ls, b);
    var b2 := Lower(c.yes, ls, b1);
    var b3 := IfElse(b, b2);
    var b4 := Lower(c.no, ls, b3);
    var head, arm, close := TestIns(c.test, ls, b, TrueOf(b), FalseOf(b)), Trace(c.yes, ls, b1),
        CloseIns(b2, MergeOf(b), b.scope);
    var arm2, close2, rest := Trace(c.no, ls, b3), CloseIns(b4, MergeOf(b), b.scope), Trace(c.next, ls, IfEnd(b, b4));
    SortedParts(head + arm + close + arm2 + close2, rest);
    SortedParts(head + arm + close + arm2, close2);
    SortedParts(head + arm + close, arm2);
    SortedParts(head + arm, close);
    SortedParts(head, arm);
  }

  lemma SortedEntry(cnd: Cond, ls: Locals, b: Builder)
    requires Sorted(EntryIns(cnd, ls, b))
    ensures OrderlyReads(cnd.first, |ls.vars|)
  {
    hide Sorted, OrderlyReads, ReadsCode, LowerReads;
    var b0 := SetLoc(b, CurrentLine(b) + 1, b.scope);
    SortedParts(ReadsCode(cnd.first, ls, b0), [Ins(IBr(ContinueOf(b)), LowerReads(cnd.first, ls, b0).0.cfg.loc)]);
    SortedReads(cnd.first, ls, b0);
  }

  // ----- theorems -----

  /** In layout order, a function's debug lines never move backwards, exactly when no loop condition
      does a get before its first load. In particular they never do when conditions print no lines. */
  lemma LinesInOrderIff(src: seq<FnDef>, k: nat)
    requires k < |src| && LoopOk(src[k].body, false)
    ensures Sorted(Log(BodyOf(src, k).cfg)) <==> Orderly(src[k].body, 0)
  {
    hide Log, Inv, Trace, Lower, FallsThrough, EndsInExit, Sorted, Orderly, Numbered, BeginFunction;
    var ls, b := Params(|src[k].params|), BeginFunction(src[k], Before(src, k));
    var m := BodyInv(src, k);
    if Orderly(src[k].body, 0) {
      BodyLines(src, k, true);
      LinedSorted(Trace(src[k].body, ls, b), b, BodyOf(src, k));
    }
    if Sorted(Log(BodyOf(src, k).cfg)) {
      SortedOrderly(src[k].body, ls, b);
    }
  }

  lemma LinedSorted(ins: seq<Ins>, b: Builder, h: Builder)
    requires Lined(ins, b, h, true) && LineOf(b) <= CurrentLine(b)
    ensures Sorted(ins)
  {}

  lemma BodyLines(src: seq<FnDef>, k: nat, ok: bool)
    requires k < |src| && (ok ==> Orderly(src[k].body, 0))
    ensures var ls, b := Params(|src[k].params|), BeginFunction(src[k], Before(src, k));
            Lined(Trace(src[k].body, ls, b), b, BodyOf(src, k), ok) && LineOf(b) == 0 && Restores(b, BodyOf(src, k))
  {
    hide Trace, Lower, Orderly, Numbered, CallsOlder, Lined, Restores;
    var bound := CallBound(src[k].body);
    SomeBound(src[k].body, bound);
    TraceEmits(src[k].body, Params(|src[k].params|), BeginFunction(src[k], Before(src, k)), bound, ok);
  }

  /** Every instruction is recorded against a line that the finished listing has. */
  lemma LinesExist(src: seq<FnDef>, k: nat, i: nat)
    requires k < |src| && LoopOk(src[k].body, false) && i < |Log(BodyOf(src, k).cfg)|
    ensures LineAt(Log(BodyOf(src, k).cfg)[i].loc) <= |Before(src, k + 1).src.lines|
  {
    hide Log, Inv, Trace, Lower, FallsThrough, EndsInExit, Climbs, BeginFunction;
    var m := BodyInv(src, k);
    BodyLines(src, k, false);
  }

  /** Lines are only ever added, so a line number keeps naming the same text. */
  lemma {:induction false} ListingGrows(src: seq<FnDef>, j: nat, k: nat)
    requires j <= k <= |src|
    ensures Before(src, j).src.lines <= Before(src, k).src.lines
    decreases k
  {
    hide Lined, Trace, Lower;
    if j < k {
      ListingGrows(src, j, k - 1);
      BodyLines(src, k - 1, false);
    }
  }

  /** Between functions nothing is left over: no loop, no open debug scope, no indentation. */
  lemma {:induction false} NothingLeftOver(src: seq<FnDef>, k: nat)
    requires k <= |src|
    ensures var b := Before(src, k); b.cfg.loop == NoLoop && b.scope == FileScope && b.src.indent == 0
    decreases k
  {
    if k > 0 {
      NothingLeftOver(src, k - 1);
      BodyLines(src, k - 1, false);
    }
  }

  function HeaderText(cnd: Cond, ls: Locals, b: Builder): string {
    "while (" + Show(cnd.test, LowerReads(cnd.first, ls, SetLoc(b, CurrentLine(b) + 1, b.scope)).1.vals) + ") {"
  }

  /** The exception: a loop header records the line after its own. */
  lemma HeaderOneAhead(cnd: Cond, ls: Locals, b: Builder)
    requires forall i :: 0 <= i < |cnd.first| ==> cnd.first[i].RGet?
    ensures var h := WhileEntry(cnd, ls, b);
            h.src.lines == b.src.lines + [Spaces(b.src.indent) + HeaderText(cnd, ls, b)] &&
            LineOf(h) == CurrentLine(b) + 1 && AllAt(EntryIns(cnd, ls, b), CurrentLine(b) + 1)
    ensures AllAt(HeaderIns(cnd, ls, b, WhileEntry(cnd, ls, b)), CurrentLine(b) + 1)
  {
    hide Show, ReadsCode, LowerReads;
    var b0, h := SetLoc(b, CurrentLine(b) + 1, b.scope), WhileEntry(cnd, ls, b);
    GetsOnly(cnd.first, ls, b0);
    GetsQuiet(cnd.first, ls, b0);
    GetsOnly(cnd.first, ls, h);
  }

  lemma {:induction false} GetsQuiet(rds: seq<Read>, ls: Locals, b: Builder)
    requires forall i :: 0 <= i < |rds| ==> rds[i].RGet?
    ensures LowerReads(rds, ls, b).0.src == b.src
    decreases |rds|
  {
    hide GetCode;
    if rds != [] {
      GetsQuiet(rds[1..], ReadLocals(rds[0], ls, b), LowerRead(rds[0], ls, b));
    }
  }

  /** A condition that gets a variable and then loads through it does move the line back. */
  lemma GetThenLoadGoesBack(f: FnDef)
    requires var first := [RGet(0), RLoad(Val(|f.params|, TPtr(TBool)))];
             f.body == Act(Declare(TPtr(TBool), "p"), While(Cond(first, Val(|f.params| + 1, TBool)), Done, Done))
    ensures !Sorted(Log(BodyOf([f], 0).cfg))
  {
    hide Sorted, Log, BodyOf;
    var first := [RGet(0), RLoad(Val(|f.params|, TPtr(TBool)))];
    assert !first[1].RGet?;
    assert !OrderlyReads(first, 1);
    assert !Orderly(f.body.next, 1);
    assert LoopOk(f.body.next, false);
    LinesInOrderIff([f], 0);
  }
}
