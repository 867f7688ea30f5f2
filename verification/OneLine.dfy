/** When a listing's lines are whole: exactly when the names given by the program contain no newline. */
module OneLine {
  import opened Types
  import opened Source
  import opened Ir
  import opened Text
  import opened Lowering
  import opened Listings
  import opened LineNames
  import Parser
  import RoundTrip

  predicate Clean(s: string) { '\n' !in s }

  predicate AllClean(names: seq<string>) { forall i :: 0 <= i < |names| ==> Clean(names[i]) }

  predicate CleanLocals(ls: Locals) { AllClean(ValNames(ls.vals)) && AllClean(VarNames(ls.vars)) }

  predicate CleanNotes(notes: seq<Note>) { forall i :: 0 <= i < |notes| ==> Clean(notes[i].text) }

  /** The names a lambda gives: those of the variables it declares and of the functions it calls. */
  predicate CleanNames(c: Code) {
    match c
    case Act(a, next) => (a.Declare? ==> Clean(a.name)) && CleanNames(next)
    case Call(fn, _, next) => Clean(fn.name) && CleanNames(next)
    case If(_, t, f, next) => CleanNames(t) && CleanNames(f) && CleanNames(next)
    case IfThen(_, t, next) => CleanNames(t) && CleanNames(next)
    case While(_, body, next) => CleanNames(body) && CleanNames(next)
    case _ => true
  }

  /** What a client can check before generating. */
  predicate CleanProgram(fns: seq<FnDef>) {
    forall k :: 0 <= k < |fns| ==> Clean(fns[k].name) && CleanNames(fns[k].body)
  }

  // ----- clean names make clean lines -----

  lemma {:induction false} ExprClean(e: Expr, vals: seq<string>)
    requires AllClean(vals)
    ensures Clean(ShowEx(EraseE(e, vals)))
    decreases e
  {
    hide Clean, AllClean, ShowEx, TyName;
    match e
    case Val(i, _) => LeafClean(e, vals);
    case Lit(_, _) => LeafClean(e, vals);
    case Arith(op, l, r) =>
      ExprClean(l, vals);
      ExprClean(r, vals);
      BinClean(Calculates(op), EraseE(l, vals), EraseE(r, vals));
    case PtrArith(minus, l, r) =>
      ExprClean(l, vals);
      ExprClean(r, vals);
      BinClean(Calculates(if minus then MinusOp else PlusOp), EraseE(l, vals), EraseE(r, vals));
    case Rel(op, l, r) =>
      ExprClean(l, vals);
      ExprClean(r, vals);
      BinClean(Compares(op), EraseE(l, vals), EraseE(r, vals));
    case Cast(to, e1) =>
      ExprClean(e1, vals);
      CastClean(false, to, EraseE(e1, vals));
    case BitCast(to, e1) =>
      ExprClean(e1, vals);
      CastClean(true, to, EraseE(e1, vals));
  }

  lemma LeafClean(e: Expr, vals: seq<string>)
    requires AllClean(vals) && (e.Val? || e.Lit?)
    ensures Clean(ShowEx(EraseE(e, vals)))
  {
    hide IntText;
    match e
    case Val(_, _) =>
    case Lit(_, n) => NumberClean(n);
  }

  lemma BinClean(op: Symbol, l: Ex, r: Ex)
    requires Clean(ShowEx(l)) && Clean(ShowEx(r))
    ensures Clean(ShowEx(Bin(op, l, r)))
  {}

  lemma CastClean(bits: bool, to: Ty, x: Ex)
    requires Clean(ShowEx(x))
    ensures Clean(ShowEx(CastTo(bits, to, x)))
  {
    hide TyName;
    Parser.TypeReadable(to);
  }

  lemma NumberClean(n: int)
    ensures Clean(IntText(n))
  {
    Parser.DigitsAreIdent(if n < 0 then -n else n);
  }

  lemma LoadClean(id: nat)
    ensures Clean(ValName(id)) && Clean(ArgName(id))
  {
    Parser.DigitsAreIdent(id);
  }

  lemma {:induction false} ArgsClean(args: seq<Expr>, vals: seq<string>)
    requires AllClean(vals)
    ensures Clean(ShowList(EraseArgs(args, vals)))
    decreases |args|
  {
    hide ShowEx, EraseE;
    if args != [] {
      ExprClean(args[0], vals);
      ArgsClean(args[1..], vals);
    }
  }

  lemma LineClean(s: Simple)
    requires match s
             case SDeclare(ty, name) => Clean(TyName(ty)) && Clean(name)
             case SSet(name, e) => Clean(name) && Clean(ShowEx(e))
             case SStore(p, e) => Clean(ShowEx(p)) && Clean(ShowEx(e))
             case SLoad(name, p) => Clean(name) && Clean(ShowEx(p))
             case SMemCmp(x, y, z) => Clean(ShowEx(x)) && Clean(ShowEx(y)) && Clean(ShowEx(z))
             case _ => false
    ensures Clean(LineText(s))
  {
    hide ShowEx;
  }

  lemma ActionClean(a: Action, ls: Locals, b: Builder, d: nat)
    requires CleanLocals(ls) && (a.Declare? ==> Clean(a.name))
    ensures CleanNotes(Printed(ActionNote(a, ls, b, d)))
  {
    hide ShowEx, EraseE, TyName, ValName, ValNames, VarNames, LineText, AllClean, Clean, VarOf;
    var vals, vars := ValNames(ls.vals), VarNames(ls.vars);
    match a
    case ReadValue(RGet(_)) =>
    case ReadValue(RLoad(p)) =>
      LoadClean(b.src.nextId);
      ExprClean(p, vals);
      LineClean(SLoad(ValName(b.src.nextId), EraseE(p, vals)));
    case Declare(ty, name) =>
      TypeClean(ty);
      LineClean(SDeclare(ty, name));
    case Set(x, e) =>
      VarClean(vars, x);
      ExprClean(e, vals);
      LineClean(SSet(VarOf(vars, x), EraseE(e, vals)));
    case Store(e, p) =>
      ExprClean(e, vals);
      ExprClean(p, vals);
      LineClean(SStore(EraseE(p, vals), EraseE(e, vals)));
    case MemCmp(p, q, n) =>
      ExprClean(p, vals);
      ExprClean(q, vals);
      ExprClean(n, vals);
      LineClean(SMemCmp(EraseE(p, vals), EraseE(q, vals), EraseE(n, vals)));
  }

  lemma TypeClean(t: Ty)
    ensures Clean(TyName(t))
  {
    Parser.TypeReadable(t);
  }

  lemma AddClean(names: seq<string>, name: string)
    requires AllClean(names) && Clean(name)
    ensures AllClean(names + [name])
  {
    hide Clean;
  }

  /** What comes into scope is clean as well. */
  lemma ActionScopeClean(a: Action, ls: Locals, b: Builder)
    requires CleanLocals(ls) && (a.Declare? ==> Clean(a.name))
    ensures CleanLocals(ActionLocals(a, ls, b))
  {
    hide ActionLocals, ValNames, VarNames, AllClean, ValName, Clean;
    var vals, vars := ValNames(ls.vals), VarNames(ls.vars);
    ActionNames(a, ls, b);
    match a
    case ReadValue(RGet(x)) =>
      VarClean(vars, x);
      AddClean(vals, VarOf(vars, x));
    case ReadValue(RLoad(_)) =>
      LoadClean(b.src.nextId);
      AddClean(vals, ValName(b.src.nextId));
    case Declare(_, name) => AddClean(vars, name);
    case MemCmp(_, _, _) =>
      FixedClean();
      AddClean(vals, "memcmp_ret");
    case _ =>
  }

  lemma VarClean(vars: seq<string>, x: nat)
    requires AllClean(vars)
    ensures Clean(VarOf(vars, x))
  {}

  lemma FixedClean()
    ensures Clean("memcmp_ret")
  {}

  lemma CallScopeClean(fn: FnRef, args: seq<Expr>, ls: Locals, b: Builder)
    requires CleanLocals(ls) && Clean(fn.name)
    ensures CleanLocals(CallLocals(fn, args, ls, b))
  {
    hide EmittedArgs, AllClean;
    var v := Value(Reg(EmittedArgs(args, ls.vals, b.cfg.nextReg).next), fn.name + "_ret");
    PushedName(ls, v);
    AddClean(ValNames(ls.vals), fn.name + "_ret");
  }

  lemma {:induction false} ReadsClean(rds: seq<Read>, ls: Locals, b: Builder, d: nat)
    requires CleanLocals(ls)
    ensures CleanNotes(ReadLines(rds, ls, b, d)) && CleanLocals(LowerReads(rds, ls, b).1)
    decreases |rds|
  {
    hide CleanLocals, ActionNote, ReadLocals, LowerRead, Clean;
    if rds != [] {
      var a := ReadValue(rds[0]);
      ActionClean(a, ls, b, d);
      ActionScopeClean(a, ls, b);
      assert ActionLocals(a, ls, b) == ReadLocals(rds[0], ls, b);
      ReadsClean(rds[1..], ReadLocals(rds[0], ls, b), LowerRead(rds[0], ls, b), d);
    }
  }

  lemma HeadsClean(e: Expr, ls: Locals, d: nat)
    requires CleanLocals(ls)
    ensures Clean(IfNote(e, ls, d).text) && Clean(ReturnNote(e, ls, d).text)
  {
    hide ShowEx, EraseE, ValNames;
    ExprClean(e, ValNames(ls.vals));
  }

  lemma CallNoteClean(fn: FnRef, args: seq<Expr>, ls: Locals, d: nat)
    requires CleanLocals(ls) && Clean(fn.name)
    ensures Clean(CallNote(fn, args, ls, d).text)
  {
    hide ShowList, EraseArgs, ValNames;
    ArgsClean(args, ValNames(ls.vals));
  }

  lemma WhileNoteClean(cnd: Cond, ls: Locals, b: Builder, d: nat)
    requires CleanLocals(ls)
    ensures Clean(WhileNote(cnd, ls, b, d).text)
  {
    hide ShowEx, EraseE, ValNames, LowerReads;
    ReadsClean(cnd.first, ls, BeforeReads(b), d);
    ExprClean(cnd.test, ValNames(LowerReads(cnd.first, ls, BeforeReads(b)).1.vals));
  }

  lemma JoinClean(xs: seq<Note>, ys: seq<Note>)
    ensures CleanNotes(xs + ys) <==> CleanNotes(xs) && CleanNotes(ys)
  {
    hide Clean;
    if CleanNotes(xs + ys) {
      forall i | 0 <= i < |xs|
        ensures Clean(xs[i].text)
      {
        assert (xs + ys)[i] == xs[i];
      }
      forall i | 0 <= i < |ys|
        ensures Clean(ys[i].text)
      {
        assert (xs + ys)[|xs| + i] == ys[i];
      }
    }
  }

  lemma OneClean(n: Note)
    ensures CleanNotes([n]) <==> Clean(n.text)
  {
    assert [n][0] == n;
  }

  lemma {:induction false} LinesClean(c: Code, ls: Locals, b: Builder, d: nat)
    requires CleanLocals(ls) && CleanNames(c)
    ensures CleanNotes(LinesOf(c, ls, b, d))
    decreases c, 1
  {
    hide CleanLocals, CleanNotes, ActionNote, ReturnNote, CallNote, IfLines, LoopLines, IfNote, ActionLocals,
         CallLocals, Lower,
         Clean, LineText;
    match c
    case Done => NoneClean();
    case Break => NoneClean(); PlainClean(d);
    case Continue => NoneClean(); PlainClean(d);
    case ReturnVoid => PlainClean(d);
    case Return(e) =>
      HeadsClean(e, ls, d);
      OneClean(ReturnNote(e, ls, d));
    case Act(a, next) =>
      ActionClean(a, ls, b, d);
      ActionScopeClean(a, ls, b);
      LinesClean(next, ActionLocals(a, ls, b), LowerAction(a, ls, b), d);
      JoinClean(Printed(ActionNote(a, ls, b, d)), LinesOf(next, ActionLocals(a, ls, b), LowerAction(a, ls, b), d));
    case Call(fn, args, next) =>
      CallNoteClean(fn, args, ls, d);
      CallScopeClean(fn, args, ls, b);
      LinesClean(next, CallLocals(fn, args, ls, b), LowerCall(fn, args, ls, b), d);
      OneClean(CallNote(fn, args, ls, d));
      JoinClean([CallNote(fn, args, ls, d)], LinesOf(next, CallLocals(fn, args, ls, b), LowerCall(fn, args, ls, b), d));
    case If(e, t, f, next) =>
      var b1 := IfHead(e, ls, b);
      var b3 := IfElse(b, Lower(t, ls, b1));
      HeadsClean(e, ls, d);
      LinesClean(t, ls, b1, d + 1);
      LinesClean(f, ls, b3, d + 1);
      LinesClean(next, ls, IfEnd(b, Lower(f, ls, b3)), d);
      IfJoin(e, t, f, next, ls, b, d);
    case IfThen(e, t, next) =>
      var b1 := IfThenHead(e, ls, b);
      HeadsClean(e, ls, d);
      LinesClean(t, ls, b1, d + 1);
      LinesClean(next, ls, IfThenEnd(b, Lower(t, ls, b1)), d);
      IfThenJoin(e, t, next, ls, b, d);
    case While(cnd, body, next) =>
      var b5 := WhileHead(cnd, ls, b);
      WhileNoteClean(cnd, ls, b, d);
      ReadsClean(cnd.first, ls, BeforeReads(b), d);
      ReadsClean(cnd.first, ls, WhileEntry(cnd, ls, b), d);
      LinesClean(body, ls, b5, d + 1);
      LinesClean(next, ls, WhileEnd(b, Lower(body, ls, b5)), d);
      LoopJoin(cnd, body, ls, b, d);
      JoinClean(LoopLines(cnd, body, ls, b, d), LinesOf(next, ls, WhileEnd(b, Lower(body, ls, b5)), d));
  }

  lemma NoneClean()
    ensures CleanNotes([])
  {}

  lemma PlainClean(d: nat)
    ensures CleanNotes([Note(d, LineText(SBreak))]) && CleanNotes([Note(d, LineText(SContinue))])
    ensures CleanNotes([Note(d, LineText(SReturnVoid))]) && Clean("}") && Clean("} else {")
  {}

  // ----- a lambda's lines, part by part -----

  lemma IfJoin(e: Expr, t: Code, f: Code, next: Code, ls: Locals, b: Builder, d: nat)
    ensures var b1 := IfHead(e, ls, b);
            var b3 := IfElse(b, Lower(t, ls, b1));
            CleanNotes(IfLines(e, t, f, next, ls, b, d)) <==>
            Clean(IfNote(e, ls, d).text) && CleanNotes(LinesOf(t, ls, b1, d + 1)) &&
            CleanNotes(LinesOf(f, ls, b3, d + 1)) &&
            CleanNotes(LinesOf(next, ls, IfEnd(b, Lower(f, ls, b3)), d))
  {
    hide CleanNotes, LinesOf, Lower, IfHead, IfElse, IfEnd, IfNote, Clean;
    var b1 := IfHead(e, ls, b);
    var b3 := IfElse(b, Lower(t, ls, b1));
    var head, mid, end := [IfNote(e, ls, d)], [Note(d, "} else {")], [Note(d, "}")];
    var yes, no, rest := LinesOf(t, ls, b1, d + 1), LinesOf(f, ls, b3, d + 1),
        LinesOf(next, ls, IfEnd(b, Lower(f, ls, b3)), d);
    PlainClean(d);
    OneClean(head[0]);
    OneClean(mid[0]);
    OneClean(end[0]);
    JoinClean(head, yes);
    JoinClean(head + yes, mid);
    JoinClean(head + yes + mid, no);
    JoinClean(head + yes + mid + no, end);
    JoinClean(head + yes + mid + no + end, rest);
  }

  lemma IfThenJoin(e: Expr, t: Code, next: Code, ls: Locals, b: Builder, d: nat)
    ensures var b1 := IfThenHead(e, ls, b);
            CleanNotes(LinesOf(IfThen(e, t, next), ls, b, d)) <==>
            Clean(IfNote(e, ls, d).text) && CleanNotes(LinesOf(t, ls, b1, d + 1)) &&
            CleanNotes(LinesOf(next, ls, IfThenEnd(b, Lower(t, ls, b1)), d))
  {
    hide CleanNotes, Lower, IfThenHead, IfThenEnd, IfNote, Clean;
    var b1 := IfThenHead(e, ls, b);
    var head, end := [IfNote(e, ls, d)], [Note(d, "}")];
    var yes, rest := LinesOf(t, ls, b1, d + 1), LinesOf(next, ls, IfThenEnd(b, Lower(t, ls, b1)), d);
    PlainClean(d);
    OneClean(head[0]);
    OneClean(end[0]);
    JoinClean(head, yes);
    JoinClean(head + yes, end);
    JoinClean(head + yes + end, rest);
  }

  lemma LoopJoin(cnd: Cond, body: Code, ls: Locals, b: Builder, d: nat)
    ensures CleanNotes(LoopLines(cnd, body, ls, b, d)) <==>
            CleanNotes(ReadLines(cnd.first, ls, BeforeReads(b), d)) && Clean(WhileNote(cnd, ls, b, d).text) &&
            CleanNotes(ReadLines(cnd.first, ls, WhileEntry(cnd, ls, b), d)) &&
            CleanNotes(LinesOf(body, ls, WhileHead(cnd, ls, b), d + 1))
  {
    hide CleanNotes, LinesOf, ReadLines, WhileEntry, WhileHead, WhileNote, Clean;
    var first, head := ReadLines(cnd.first, ls, BeforeReads(b), d), [WhileNote(cnd, ls, b, d)];
    var second, inner, end := ReadLines(cnd.first, ls, WhileEntry(cnd, ls, b), d),
    LinesOf(body, ls, WhileHead(cnd, ls, b), d + 1), [Note(d, "}")];
    PlainClean(d);
    OneClean(head[0]);
    OneClean(end[0]);
    JoinClean(first, head);
    JoinClean(first + head, second);
    JoinClean(first + head + second, inner);
    JoinClean(first + head + second + inner, end);
  }

  // ----- clean lines come from clean names -----

  lemma GivenNames(a: Action, fn: FnRef, args: seq<Expr>, ls: Locals, b: Builder, d: nat)
    ensures CleanNotes(Printed(ActionNote(a, ls, b, d))) && a.Declare? ==> Clean(a.name)
    ensures Clean(CallNote(fn, args, ls, d).text) ==> Clean(fn.name)
  {
    hide ShowList, EraseArgs, TyName;
    if a.Declare? {
      OneClean(ActionNote(a, ls, b, d).value);
    }
  }

  lemma {:induction false} LinesGiveNames(c: Code, ls: Locals, b: Builder, d: nat)
    requires CleanNotes(LinesOf(c, ls, b, d))
    ensures CleanNames(c)
    decreases c
  {
    hide CleanNotes, ActionNote, ReturnNote, CallNote, IfLines, LoopLines, IfNote, ActionLocals, CallLocals, Lower,
         Clean, LineText;
    match c
    case Act(a, next) =>
      JoinClean(Printed(ActionNote(a, ls, b, d)), LinesOf(next, ActionLocals(a, ls, b), LowerAction(a, ls, b), d));
      GivenNames(a, FnRef(0, "", [], TVoid), [], ls, b, d);
      LinesGiveNames(next, ActionLocals(a, ls, b), LowerAction(a, ls, b), d);
    case Call(fn, args, next) =>
      JoinClean([CallNote(fn, args, ls, d)], LinesOf(next, CallLocals(fn, args, ls, b), LowerCall(fn, args, ls, b), d));
      OneClean(CallNote(fn, args, ls, d));
      GivenNames(Set(0, Lit(TBool, 0)), fn, args, ls, b, d);
      LinesGiveNames(next, CallLocals(fn, args, ls, b), LowerCall(fn, args, ls, b), d);
    case If(e, t, f, next) =>
      var b1 := IfHead(e, ls, b);
      var b3 := IfElse(b, Lower(t, ls, b1));
      IfJoin(e, t, f, next, ls, b, d);
      LinesGiveNames(t, ls, b1, d + 1);
      LinesGiveNames(f, ls, b3, d + 1);
      LinesGiveNames(next, ls, IfEnd(b, Lower(f, ls, b3)), d);
    case IfThen(e, t, next) =>
      var b1 := IfThenHead(e, ls, b);
      IfThenJoin(e, t, next, ls, b, d);
      LinesGiveNames(t, ls, b1, d + 1);
      LinesGiveNames(next, ls, IfThenEnd(b, Lower(t, ls, b1)), d);
    case While(cnd, body, next) =>
      var b5 := WhileHead(cnd, ls, b);
      JoinClean(LoopLines(cnd, body, ls, b, d), LinesOf(next, ls, WhileEnd(b, Lower(body, ls, b5)), d));
      LoopJoin(cnd, body, ls, b, d);
      LinesGiveNames(body, ls, b5, d + 1);
      LinesGiveNames(next, ls, WhileEnd(b, Lower(body, ls, b5)), d);
    case _ =>
  }
}
