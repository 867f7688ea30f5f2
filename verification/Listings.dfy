/** The listing as a text: what it says, with types erased, and how it is laid out in lines. */
module Listings {
  import opened Types
  import opened Source
  import opened Ir
  import opened Text
  import opened Lowering

  // ----- lines -----

  /** The line up to the first newline. */
  function FirstLine(s: string): (l: string)
    ensures '\n' !in l && |l| <= |s|
  {
    if s == "" || s[0] == '\n' then "" else [s[0]] + FirstLine(s[1..])
  }

  /** The lines of a text in which every line is ended by a newline. */
  function SplitLines(s: string): seq<string>
    decreases |s|
  {
    if s == "" then []
    else
      var l := FirstLine(s);
      [l] + SplitLines(if |l| < |s| then s[|l| + 1..] else "")
  }

  lemma {:induction false} FirstLineOf(l: string, rest: string)
    requires '\n' !in l
    ensures FirstLine(l + "\n" + rest) == l
    decreases |l|
  {
    if l != "" {
      assert (l + "\n" + rest)[1..] == l[1..] + "\n" + rest;
      FirstLineOf(l[1..], rest);
    } else {
      assert (l + "\n" + rest)[0] == '\n';
    }
  }

  lemma {:induction false} JoinCons(l: string, lines: seq<string>)
    ensures Join([l] + lines) == l + "\n" + Join(lines)
    decreases |lines|
  {
    if lines == [] {
      assert [l] + lines == [l] && [l][..0] == [];
      assert Join([l][..0]) == "" && Join([l]) == Join([l][..0]) + l + "\n";
    } else {
      var n := |lines| - 1;
      var all := [l] + lines;
      assert all[..|all| - 1] == [l] + lines[..n] && all[|all| - 1] == lines[n];
      JoinCons(l, lines[..n]);
    }
  }

  lemma {:induction false} SplitClean(lines: seq<string>)
    requires forall l :: l in lines ==> '\n' !in l
    ensures SplitLines(Join(lines)) == lines
    decreases |lines|
  {
    if lines != [] {
      var l := lines[0];
      assert lines == [l] + lines[1..];
      JoinCons(l, lines[1..]);
      FirstLineOf(l, Join(lines[1..]));
      var s := l + "\n" + Join(lines[1..]);
      assert s[|l| + 1..] == Join(lines[1..]);
      SplitClean(lines[1..]);
    }
  }

  function Newlines(s: string): nat { if s == "" then 0 else (if s[0] == '\n' then 1 else 0) + Newlines(s[1..]) }

  lemma {:induction false} NewlinesAppend(s: string, t: string)
    ensures Newlines(s + t) == Newlines(s) + Newlines(t)
    decreases |s|
  {
    if s == "" {
      assert s + t == t;
    } else {
      assert (s + t)[1..] == s[1..] + t;
      NewlinesAppend(s[1..], t);
    }
  }

  lemma {:induction false} NewlinesIn(s: string)
    ensures Newlines(s) == 0 <==> '\n' !in s
    decreases |s|
  {
    if s != "" {
      NewlinesIn(s[1..]);
    }
  }

  lemma {:induction false} SplitCount(s: string)
    requires s == "" || s[|s| - 1] == '\n'
    ensures |SplitLines(s)| == Newlines(s)
    decreases |s|
  {
    if s != "" {
      var l := FirstLine(s);
      FirstLineEnds(s);
      assert s == l + "\n" + s[|l| + 1..];
      NewlinesAppend(l + "\n", s[|l| + 1..]);
      NewlinesAppend(l, "\n");
      NewlinesIn(l);
      assert "\n"[1..] == "";
      SplitCount(s[|l| + 1..]);
    }
  }

  lemma {:induction false} FirstLineEnds(s: string)
    requires s != "" && s[|s| - 1] == '\n'
    ensures |FirstLine(s)| < |s| && s[|FirstLine(s)|] == '\n' && s[..|FirstLine(s)|] == FirstLine(s)
    decreases |s|
  {
    if s[0] != '\n' {
      FirstLineEnds(s[1..]);
      assert s[..|FirstLine(s)|] == [s[0]] + s[1..][..|FirstLine(s[1..])|];
    }
  }

  lemma OneNewline()
    ensures Newlines("\n") == 1
  {
    assert "\n"[1..] == "";
  }

  lemma {:induction false} JoinCount(lines: seq<string>)
    ensures Newlines(Join(lines)) >= |lines|
    ensures Newlines(Join(lines)) == |lines| ==> forall l :: l in lines ==> '\n' !in l
    ensures Join(lines) == "" || Join(lines)[|Join(lines)| - 1] == '\n'
    decreases |lines|
  {
    if lines != [] {
      hide Newlines;
      var n := |lines| - 1;
      JoinCount(lines[..n]);
      NewlinesAppend(Join(lines[..n]) + lines[n], "\n");
      NewlinesAppend(Join(lines[..n]), lines[n]);
      NewlinesIn(lines[n]);
      OneNewline();
      assert forall l :: l in lines <==> l in lines[..n] || l == lines[n];
    }
  }

  /** Line k of the listing is the k-th line added, for every k, exactly when no line added contains a
      newline: then the number add_line returned is the 1-based index of its text. */
  lemma LinesAreIndexed(lines: seq<string>)
    ensures SplitLines(Join(lines)) == lines <==> forall l :: l in lines ==> '\n' !in l
  {
    JoinCount(lines);
    SplitCount(Join(lines));
    if forall l :: l in lines ==> '\n' !in l {
      SplitClean(lines);
    }
  }

  // ----- what a listing says -----

  datatype Symbol = Calculates(aop: ArithOp) | Compares(rop: RelOp)

  /** An expression without the types of its leaves. */
  datatype Ex = Num(n: int) | Name(s: string) | Bin(op: Symbol, l: Ex, r: Ex) | CastTo(bits: bool, ty: Ty, e: Ex)

  /** A statement that takes one line. */
  datatype Simple =
    | SDeclare(ty: Ty, name: string)
    | SSet(name: string, e: Ex)
    | SStore(p: Ex, e: Ex)
    | SLoad(name: string, p: Ex)
    | SCall(fn: string, args: seq<Ex>)
    | SMemCmp(a: Ex, b: Ex, c: Ex)
    | SBreak
    | SContinue
    | SReturn(e: Ex)
    | SReturnVoid

  datatype Tree =
    | End
    | One(s: Simple, next: Tree)
    | TIf(test: Ex, yes: Tree, no: Tree, next: Tree)
    | TIfThen(test: Ex, yes: Tree, next: Tree)
    | TWhile(test: Ex, body: Tree, next: Tree)

  function SymbolText(op: Symbol): string {
    match op
    case Calculates(o) => [ArithSymbol(o)]
    case Compares(o) => RelSymbol(o)
  }

  function ShowEx(x: Ex): string {
    match x
    case Num(n) => IntText(n)
    case Name(s) => s
    case Bin(op, l, r) => "(" + ShowEx(l) + " " + SymbolText(op) + " " + ShowEx(r) + ")"
    case CastTo(bits, ty, e) => (if bits then "bit_cast" else "cast") + "<" + TyName(ty) + ">(" + ShowEx(e) + ")"
  }

  function ShowList(args: seq<Ex>): string { if args == [] then "" else ShowEx(args[0]) + ", " + ShowList(args[1..]) }

  function LineText(s: Simple): string {
    match s
    case SDeclare(ty, name) => TyName(ty) + " " + name + ";"
    case SSet(name, e) => name + " = " + ShowEx(e) + ";"
    case SStore(p, e) => "*" + ShowEx(p) + " = " + ShowEx(e)
    case SLoad(name, p) => name + " = *" + ShowEx(p)
    case SCall(fn, args) => fn + "_ret = " + fn + "(" + ShowList(args) + ");"
    case SMemCmp(a, b, c) => "memcmp_ret = memcmp(" + ShowEx(a) + ", " + ShowEx(b) + ", " + ShowEx(c) + ");"
    case SBreak => "break;"
    case SContinue => "continue;"
    case SReturn(e) => "return " + ShowEx(e) + ";"
    case SReturnVoid => "return;"
  }

  function Print(t: Tree, indent: nat): seq<string> {
    match t
    case End => []
    case One(s, next) => [Spaces(indent) + LineText(s)] + Print(next, indent)
    case TIf(e, yes, no, next) =>
      [Spaces(indent) + ("if (" + ShowEx(e) + ") {")] + Print(yes, indent + 4) + [Spaces(indent) + "} else {"] +
      Print(no, indent + 4) + [Spaces(indent) + "}"] + Print(next, indent)
    case TIfThen(e, yes, next) =>
      [Spaces(indent) + ("if (" + ShowEx(e) + ") {")] + Print(yes, indent + 4) + [Spaces(indent) + "}"] +
          Print(next, indent)
    case TWhile(e, body, next) =>
      [Spaces(indent) + ("while (" + ShowEx(e) + ") {")] + Print(body, indent + 4) + [Spaces(indent) + "}"] +
          Print(next, indent)
  }

  // ----- erasure -----

  function EraseE(e: Expr, vals: seq<string>): Ex {
    match e
    case Val(i, _) => Name(if i < |vals| then vals[i] else "")
    case Lit(ty, n) => if ty.TBool? then Name(if n != 0 then "true" else "false") else Num(n)
    case Arith(op, l, r) => Bin(Calculates(op), EraseE(l, vals), EraseE(r, vals))
    case PtrArith(minus, l, r) => Bin(Calculates(if minus then MinusOp else PlusOp), EraseE(l, vals), EraseE(r, vals))
    case Rel(op, l, r) => Bin(Compares(op), EraseE(l, vals), EraseE(r, vals))
    case Cast(to, e1) => CastTo(false, to, EraseE(e1, vals))
    case BitCast(to, e1) => CastTo(true, to, EraseE(e1, vals))
  }

  function EraseArgs(args: seq<Expr>, vals: seq<string>): (xs: seq<Ex>)
    ensures |xs| == |args|
  {
    if args == [] then [] else [EraseE(args[0], vals)] + EraseArgs(args[1..], vals)
  }

  function VarOf(vars: seq<string>, x: nat): string { if x < |vars| then vars[x] else "" }

  /** The names a condition's gets add. */
  function GetNames(rds: seq<Read>, vars: seq<string>): seq<string> {
    if rds == [] then [] else [if rds[0].RGet? then VarOf(vars, rds[0].x) else ""] + GetNames(rds[1..], vars)
  }

  function ValName(id: nat): string { "val" + NatText(id) }

  /** The tree a lambda's listing stands for, and the next load's number. gets leave no trace but the
      names under which their values appear. */
  function Erase(c: Code, vals: seq<string>, vars: seq<string>, id: nat): (Tree, nat)
    decreases c, 1
  {
    match c
    case Done => (End, id)
    case Break => (One(SBreak, End), id)
    case Continue => (One(SContinue, End), id)
    case Return(e) => (One(SReturn(EraseE(e, vals)), End), id)
    case ReturnVoid => (One(SReturnVoid, End), id)
    case Act(a, next) => EraseAct(a, next, vals, vars, id)
    case Call(fn, args, next) =>
      var (t, id1) := Erase(next, vals + [fn.name + "_ret"], vars, id);
      (One(SCall(fn.name, EraseArgs(args, vals)), t), id1)
    case If(e, t, f, next) =>
      var (yes, id1) := Erase(t, vals, vars, id);
      var (no, id2) := Erase(f, vals, vars, id1);
      var (rest, id3) := Erase(next, vals, vars, id2);
      (TIf(EraseE(e, vals), yes, no, rest), id3)
    case IfThen(e, t, next) =>
      var (yes, id1) := Erase(t, vals, vars, id);
      var (rest, id2) := Erase(next, vals, vars, id1);
      (TIfThen(EraseE(e, vals), yes, rest), id2)
    case While(cnd, body, next) =>
      var (inner, id1) := Erase(body, vals, vars, id);
      var (rest, id2) := Erase(next, vals, vars, id1);
      (TWhile(EraseE(cnd.test, vals + GetNames(cnd.first, vars)), inner, rest), id2)
  }

  function EraseAct(a: Action, next: Code, vals: seq<string>, vars: seq<string>, id: nat): (Tree, nat)
    decreases Act(a, next), 0
  {
    match a
    case ReadValue(RGet(x)) => Erase(next, vals + [VarOf(vars, x)], vars, id)
    case ReadValue(RLoad(p)) =>
      var (t, id1) := Erase(next, vals + [ValName(id)], vars, id + 1);
      (One(SLoad(ValName(id), EraseE(p, vals)), t), id1)
    case Declare(ty, name) =>
      var (t, id1) := Erase(next, vals, vars + [name], id);
      (One(SDeclare(ty, name), t), id1)
    case Set(x, e) =>
      var (t, id1) := Erase(next, vals, vars, id);
      (One(SSet(VarOf(vars, x), EraseE(e, vals)), t), id1)
    case Store(e, p) =>
      var (t, id1) := Erase(next, vals, vars, id);
      (One(SStore(EraseE(p, vals), EraseE(e, vals)), t), id1)
    case MemCmp(p, q, n) =>
      var (t, id1) := Erase(next, vals + ["memcmp_ret"], vars, id);
      (One(SMemCmp(EraseE(p, vals), EraseE(q, vals), EraseE(n, vals)), t), id1)
  }

  /** No loop condition prints a line of its own. */
  predicate QuietConditions(c: Code) {
    match c
    case Act(_, next) => QuietConditions(next)
    case Call(_, _, next) => QuietConditions(next)
    case If(_, t, f, next) => QuietConditions(t) && QuietConditions(f) && QuietConditions(next)
    case IfThen(_, t, next) => QuietConditions(t) && QuietConditions(next)
    case While(cnd, body, next) => AllGets(cnd.first) && QuietConditions(body) && QuietConditions(next)
    case _ => true
  }

  predicate AllGets(rds: seq<Read>) { forall i :: 0 <= i < |rds| ==> rds[i].RGet? }

  // ----- the builder prints exactly that -----

  function ValNames(vals: seq<Value>): (s: seq<string>)
    ensures |s| == |vals|
  {
    seq(|vals|, i requires 0 <= i < |vals| => vals[i].name)
  }

  function VarNames(vars: seq<Variable>): (s: seq<string>)
    ensures |s| == |vars|
  {
    seq(|vars|, i requires 0 <= i < |vars| => vars[i].name)
  }

  lemma {:induction false} ShowErased(e: Expr, vals: seq<Value>)
    ensures Show(e, vals) == ShowEx(EraseE(e, ValNames(vals)))
    decreases e
  {
    hide IntText, TyName, RelSymbol;
    match e
    case Val(_, _) =>
    case Lit(_, _) =>
    case Arith(_, l, r) => ShowErased(l, vals); ShowErased(r, vals);
    case PtrArith(_, l, r) => ShowErased(l, vals); ShowErased(r, vals);
    case Rel(_, l, r) => ShowErased(l, vals); ShowErased(r, vals);
    case Cast(_, e1) => ShowErased(e1, vals);
    case BitCast(_, e1) => ShowErased(e1, vals);
  }

  lemma {:induction false} ShowArgsErased(args: seq<Expr>, vals: seq<Value>)
    ensures ShowArgs(args, vals) == ShowList(EraseArgs(args, ValNames(vals)))
    decreases |args|
  {
    if args != [] {
      ShowErased(args[0], vals);
      ShowArgsErased(args[1..], vals);
    }
  }

  lemma PushedName(ls: Locals, v: Value)
    ensures ValNames(PushValue(ls, v).vals) == ValNames(ls.vals) + [v.name]
  {}

  /** What `t` prints has been added, and the load counter has moved on to `id`. */
  predicate Adds(b: Builder, h: Builder, t: Tree, id: nat) {
    h.src == Listing(b.src.lines + Print(t, b.src.indent), b.src.indent, id)
  }

  /** A lambda's statements print exactly what its erased tree prints. */
  lemma {:induction false} LowerPrints(c: Code, ls: Locals, b: Builder)
    requires LoopOk(c, b.cfg.loop.InLoop?) && QuietConditions(c)
    ensures var (t, id) := Erase(c, ValNames(ls.vals), VarNames(ls.vars), b.src.nextId);
            Adds(b, Lower(c, ls, b), t, id) && Lower(c, ls, b).cfg.loop == b.cfg.loop
    decreases c, 2
  {
    hide Adds, Show, LowerAct, LowerCallThen, LowerIf, LowerIfThen, LowerWhile, EraseAct, Exit;
    match c
    case Done => NothingAdded(b);
    case Break => ExitAdds(b, SBreak, [IBr(b.cfg.loop.breakBlock)], b.cfg.nextReg);
    case Continue => ExitAdds(b, SContinue, [IBr(b.cfg.loop.continueBlock)], b.cfg.nextReg);
    case Return(e) =>
      var ec := Emitted(e, ls.vals, b.cfg.nextReg);
      ShowErased(e, ls.vals);
      ExitAdds(b, SReturn(EraseE(e, ValNames(ls.vals))), ec.ops + [IRet(Some(ec.res))], ec.next);
    case ReturnVoid => ExitAdds(b, SReturnVoid, [IRet(None)], b.cfg.nextReg);
    case Act(a, next) => ActPrints(a, next, ls, b);
    case Call(fn, args, next) => CallPrints(fn, args, next, ls, b);
    case If(e, t, f, next) => IfPrints(e, t, f, next, ls, b);
    case IfThen(e, t, next) => IfThenPrints(e, t, next, ls, b);
    case While(cnd, body, next) => WhilePrints(cnd, body, next, ls, b);
  }

  lemma NothingAdded(b: Builder)
    ensures Adds(b, b, End, b.src.nextId)
  {
    assert b.src.lines + [] == b.src.lines;
  }

  lemma ExitAdds(b: Builder, s: Simple, ops: seq<Op>, n: nat)
    ensures Adds(b, Exit(b, LineText(s), ops, n), One(s, End), b.src.nextId) &&
            Exit(b, LineText(s), ops, n).cfg.loop == b.cfg.loop
  {
    hide LineText;
    var line := Spaces(b.src.indent) + LineText(s);
    assert Print(One(s, End), b.src.indent) == [line] + Print(End, b.src.indent);
    assert [line] + [] == [line];
    assert Exit(b, LineText(s), ops, n).src.lines == b.src.lines + [line];
  }

  /** One line, then the rest of the lambda. */
  lemma LineThen(b: Builder, b1: Builder, h: Builder, s: Simple, t: Tree, id: nat)
    requires b1.src.lines == b.src.lines + [Spaces(b.src.indent) + LineText(s)] && b1.src.indent == b.src.indent &&
             Adds(b1, h, t, id)
    ensures Adds(b, h, One(s, t), id)
  {
    hide LineText;
  }

  lemma PushedVar(vars: seq<Variable>, v: Variable)
    ensures VarNames(vars + [v]) == VarNames(vars) + [v.name]
  {}

  /** The line of an action, if it prints one. */
  lemma ActionPrints(a: Action, ls: Locals, b: Builder)
    ensures var vals, b1 := ValNames(ls.vals), LowerAction(a, ls, b);
            b1.src.indent == b.src.indent && b1.cfg.loop == b.cfg.loop &&
            match a
            case ReadValue(RGet(_)) => b1.src == b.src
            case ReadValue(RLoad(p)) => Prints(b, b1, SLoad(ValName(b.src.nextId), EraseE(p, vals))) &&
            b1.src.nextId == b.src.nextId + 1
            case Declare(ty, name) => Prints(b, b1, SDeclare(ty, name)) && b1.src.nextId == b.src.nextId
            case Set(x, e) => Prints(b, b1, SSet(VarOf(VarNames(ls.vars), x), EraseE(e, vals))) &&
            b1.src.nextId == b.src.nextId
            case Store(e, p) => Prints(b, b1, SStore(EraseE(p, vals), EraseE(e, vals))) && b1.src.nextId == b.src.nextId
            case MemCmp(p, q, n) =>
              Prints(b, b1, SMemCmp(EraseE(p, vals), EraseE(q, vals), EraseE(n, vals))) && b1.src.nextId == b.src.nextId
  {
    hide Show, ShowEx, EraseE, TyName, NatText, ActionCode, ReadCode;
    match a
    case ReadValue(RGet(_)) =>
    case ReadValue(RLoad(p)) => ShowErased(p, ls.vals);
    case Declare(_, _) =>
    case Set(_, e) => ShowErased(e, ls.vals);
    case Store(e, p) => ShowErased(e, ls.vals); ShowErased(p, ls.vals);
    case MemCmp(p, q, n) => ShowErased(p, ls.vals); ShowErased(q, ls.vals); ShowErased(n, ls.vals);
  }

  predicate Prints(b: Builder, b1: Builder, s: Simple) {
    b1.src.lines == b.src.lines + [Spaces(b.src.indent) + LineText(s)]
  }

  /** What an action adds to the names in scope. */
  lemma ActionNames(a: Action, ls: Locals, b: Builder)
    ensures var ls1, vals, vars := ActionLocals(a, ls, b), ValNames(ls.vals), VarNames(ls.vars);
            match a
            case ReadValue(RGet(x)) => ValNames(ls1.vals) == vals + [VarOf(vars, x)] && ls1.vars == ls.vars
            case ReadValue(RLoad(_)) => ValNames(ls1.vals) == vals + [ValName(b.src.nextId)] && ls1.vars == ls.vars
            case Declare(_, name) => ls1.vals == ls.vals && VarNames(ls1.vars) == vars + [name]
            case MemCmp(_, _, _) => ValNames(ls1.vals) == vals + ["memcmp_ret"] && ls1.vars == ls.vars
            case _ => ls1 == ls
  {
    hide ActionCode, ReadCode, NatText;
    match a
    case ReadValue(rd) => PushedName(ls, Value(ReadCode(rd, ls, b.cfg.nextReg).res, ReadName(rd, ls, b)));
    case Declare(ty, name) => PushedVar(ls.vars, Variable(|b.cfg.slots|, ty, name));
    case MemCmp(_, _, _) => PushedName(ls, Value(ActionCode(a, ls, b.cfg.nextReg).res, "memcmp_ret"));
    case _ =>
  }

  lemma {:induction false} ActPrints(a: Action, next: Code, ls: Locals, b: Builder)
    requires LoopOk(next, b.cfg.loop.InLoop?) && QuietConditions(next)
    ensures var (t, id) := EraseAct(a, next, ValNames(ls.vals), VarNames(ls.vars), b.src.nextId);
            Adds(b, LowerAct(a, next, ls, b), t, id) && LowerAct(a, next, ls, b).cfg.loop == b.cfg.loop
    decreases Act(a, next), 1
  {
    hide Adds, Erase, Lower, LowerAction, ActionLocals, EraseE, ValName, TyName, LineText, LoopOk, QuietConditions;
    var ls1, b1 := ActionLocals(a, ls, b), LowerAction(a, ls, b);
    ActionPrints(a, ls, b);
    ActionNames(a, ls, b);
    LowerPrints(next, ls1, b1);
    var (t, id) := Erase(next, ValNames(ls1.vals), VarNames(ls1.vars), b1.src.nextId);
    if a.ReadValue? && a.rd.RGet? {
      SameStart(b, b1, Lower(next, ls1, b1), t, id);
    } else {
      LineThen(b, b1, Lower(next, ls1, b1), EraseAct(a, next, ValNames(ls.vals), VarNames(ls.vars), b.src.nextId).0.s,
          t, id);
    }
  }

  lemma SameStart(b: Builder, b1: Builder, h: Builder, t: Tree, id: nat)
    requires b1.src == b.src && Adds(b1, h, t, id)
    ensures Adds(b, h, t, id)
  {}

  lemma {:induction false} CallPrints(fn: FnRef, args: seq<Expr>, next: Code, ls: Locals, b: Builder)
    requires LoopOk(next, b.cfg.loop.InLoop?) && QuietConditions(next)
    ensures var (t, id) := Erase(Call(fn, args, next), ValNames(ls.vals), VarNames(ls.vars), b.src.nextId);
            Adds(b, LowerCallThen(fn, args, next, ls, b), t, id) &&
            LowerCallThen(fn, args, next, ls, b).cfg.loop == b.cfg.loop
    decreases Call(fn, args, next), 1
  {
    hide Adds, Lower, EmittedArgs, LoopOk, QuietConditions, ShowArgs, ShowList;
    var ls1, b1 := CallLocals(fn, args, ls, b), LowerCall(fn, args, ls, b);
    ShowArgsErased(args, ls.vals);
    PushedName(ls, Value(Reg(EmittedArgs(args, ls.vals, b.cfg.nextReg).next), fn.name + "_ret"));
    LowerPrints(next, ls1, b1);
    var (t, id) := Erase(next, ValNames(ls1.vals), VarNames(ls1.vars), b1.src.nextId);
    LineThen(b, b1, Lower(next, ls1, b1), SCall(fn.name, EraseArgs(args, ValNames(ls.vals))), t, id);
  }

  // ----- branching statements -----

  /** From b to h exactly these lines have been added; indentation and counter are as given. */
  predicate LinesAdded(b: Builder, h: Builder, lines: seq<string>, indent: nat, id: nat) {
    h.src == Listing(b.src.lines + lines, indent, id)
  }

  lemma LinesAddedTwice(b: Builder, m: Builder, h: Builder, xs: seq<string>, ys: seq<string>, i: nat, j: nat, id: nat,
      id': nat)
    requires LinesAdded(b, m, xs, i, id) && LinesAdded(m, h, ys, j, id')
    ensures LinesAdded(b, h, xs + ys, j, id')
  {}

  /** Both arms of an if_, each with the line before it. */
  lemma TwoArms(b: Builder, b1: Builder, b2: Builder, b3: Builder, b4: Builder, parts: seq<seq<string>>, i: nat,
      id: nat, id1: nat, id2: nat)
    requires |parts| == 4 && LinesAdded(b, b1, parts[0], i, id) && LinesAdded(b1, b2, parts[1], i, id1)
    requires LinesAdded(b2, b3, parts[2], i, id1) && LinesAdded(b3, b4, parts[3], i, id2)
    ensures LinesAdded(b, b4, parts[0] + parts[1] + parts[2] + parts[3], i, id2)
  {
    hide LinesAdded;
    LinesAddedTwice(b, b1, b2, parts[0], parts[1], i, i, id, id1);
    LinesAddedTwice(b, b2, b3, parts[0] + parts[1], parts[2], i, i, id1, id1);
    LinesAddedTwice(b, b3, b4, parts[0] + parts[1] + parts[2], parts[3], i, i, id1, id2);
  }

  /** The closing line of a block and what follows the block. */
  lemma OneArm(b: Builder, b2: Builder, b3: Builder, b4: Builder, lines: seq<string>, end: seq<string>,
      rest: seq<string>, i: nat, j: nat, id1: nat, id2: nat)
    requires LinesAdded(b, b2, lines, j, id1) && LinesAdded(b2, b3, end, i, id1) && LinesAdded(b3, b4, rest, i, id2)
    ensures LinesAdded(b, b4, lines + end + rest, i, id2)
  {
    hide LinesAdded;
    LinesAddedTwice(b, b2, b3, lines, end, j, i, id1, id1);
    LinesAddedTwice(b, b3, b4, lines + end, rest, i, i, id1, id2);
  }

  lemma AddsExtends(b: Builder, h: Builder, t: Tree, id: nat)
    ensures Adds(b, h, t, id) <==> LinesAdded(b, h, Print(t, b.src.indent), b.src.indent, id)
  {}

  lemma IfHeads(e: Expr, ls: Locals, b: Builder)
    ensures var text := [Spaces(b.src.indent) + ("if (" + ShowEx(EraseE(e, ValNames(ls.vals))) + ") {")];
            LinesAdded(b, IfHead(e, ls, b), text, b.src.indent + 4, b.src.nextId) &&
            IfHead(e, ls, b).cfg.loop == b.cfg.loop &&
            LinesAdded(b, IfThenHead(e, ls, b), text, b.src.indent + 4, b.src.nextId) &&
            IfThenHead(e, ls, b).cfg.loop == b.cfg.loop
  {
    hide Show, ShowEx, Emitted;
    ShowErased(e, ls.vals);
  }

  lemma IfTails(b: Builder, b2: Builder)
    requires b2.src.indent == b.src.indent + 4
    ensures LinesAdded(b2, IfElse(b, b2), [Spaces(b.src.indent) + "} else {"], b.src.indent + 4, b2.src.nextId) &&
            IfElse(b, b2).cfg.loop == b2.cfg.loop
    ensures LinesAdded(b2, IfEnd(b, b2), [Spaces(b.src.indent) + "}"], b.src.indent, b2.src.nextId) &&
            IfEnd(b, b2).cfg.loop == b2.cfg.loop
    ensures LinesAdded(b2, IfThenEnd(b, b2), [Spaces(b.src.indent) + "}"], b.src.indent, b2.src.nextId) &&
            IfThenEnd(b, b2).cfg.loop == b2.cfg.loop
    ensures LinesAdded(b2, WhileEnd(b, b2), [Spaces(b.src.indent) + "}"], b.src.indent, b2.src.nextId) &&
            WhileEnd(b, b2).cfg.loop == b.cfg.loop
  {}

  lemma {:induction false} IfPrints(e: Expr, t: Code, f: Code, next: Code, ls: Locals, b: Builder)
    requires LoopOk(t, b.cfg.loop.InLoop?) && LoopOk(f, b.cfg.loop.InLoop?) && LoopOk(next, b.cfg.loop.InLoop?)
    requires QuietConditions(t) && QuietConditions(f) && QuietConditions(next)
    ensures var (tree, id) := Erase(If(e, t, f, next), ValNames(ls.vals), VarNames(ls.vars), b.src.nextId);
            Adds(b, LowerIf(e, t, f, next, ls, b), tree, id) && LowerIf(e, t, f, next, ls, b).cfg.loop == b.cfg.loop
    decreases If(e, t, f, next), 1
  {
    hide Erase, LinesAdded, Adds, Lower, IfHead, IfElse, IfEnd, LoopOk, QuietConditions, EraseE, ShowEx, Print,
         ValNames, VarNames, Spaces, EraseAct;
    var vals, vars, i := ValNames(ls.vals), VarNames(ls.vars), b.src.indent;
    var b1 := IfHead(e, ls, b);
    var b2 := Lower(t, ls, b1);
    var b3 := IfElse(b, b2);
    var b4 := Lower(f, ls, b3);
    var b5 := IfEnd(b, b4);
    var b6 := Lower(next, ls, b5);
    var test := EraseE(e, vals);
    var head, middle, end := [Spaces(i) + ("if (" + ShowEx(test) + ") {")], [Spaces(i) + "} else {"], [Spaces(i) + "}"];
    IfHeads(e, ls, b);
    Indents(b, b1, head, i + 4, b.src.nextId);
    LowerPrints(t, ls, b1);
    var (yes, id1) := Erase(t, vals, vars, b.src.nextId);
    Added(b1, b2, yes, id1);
    IfTails(b, b2);
    Indents(b2, b3, middle, i + 4, id1);
    LowerPrints(f, ls, b3);
    var (no, id2) := Erase(f, vals, vars, id1);
    Added(b3, b4, no, id2);
    IfTails(b, b4);
    Indents(b4, b5, end, i, id2);
    LowerPrints(next, ls, b5);
    var (rest, id3) := Erase(next, vals, vars, id2);
    Added(b5, b6, rest, id3);
    TwoArms(b, b1, b2, b3, b4, [head, Print(yes, i + 4), middle, Print(no, i + 4)], i + 4, b.src.nextId, id1, id2);
    OneArm(b, b4, b5, b6, head + Print(yes, i + 4) + middle + Print(no, i + 4), end,
        Print(rest, i), i, i + 4, id2, id3);
    EraseIf(e, t, f, next, vals, vars, b.src.nextId);
    PrintIf(test, yes, no, rest, i);
    AddsExtends(b, b6, TIf(test, yes, no, rest), id3);
  }

  lemma EraseIf(e: Expr, t: Code, f: Code, next: Code, vals: seq<string>, vars: seq<string>, id: nat)
    ensures var (yes, id1) := Erase(t, vals, vars, id);
            var (no, id2) := Erase(f, vals, vars, id1);
            var (rest, id3) := Erase(next, vals, vars, id2);
            Erase(If(e, t, f, next), vals, vars, id) == (TIf(EraseE(e, vals), yes, no, rest), id3)
  {}

  lemma EraseIfThen(e: Expr, t: Code, next: Code, vals: seq<string>, vars: seq<string>, id: nat)
    ensures var (yes, id1) := Erase(t, vals, vars, id);
            var (rest, id2) := Erase(next, vals, vars, id1);
            Erase(IfThen(e, t, next), vals, vars, id) == (TIfThen(EraseE(e, vals), yes, rest), id2)
  {}

  lemma EraseWhile(cnd: Cond, body: Code, next: Code, vals: seq<string>, vars: seq<string>, id: nat)
    ensures var (inner, id1) := Erase(body, vals, vars, id);
            var (rest, id2) := Erase(next, vals, vars, id1);
            Erase(While(cnd, body, next), vals, vars, id) ==
            (TWhile(EraseE(cnd.test, vals + GetNames(cnd.first, vars)), inner, rest), id2)
  {}

  lemma PrintIf(e: Ex, yes: Tree, no: Tree, next: Tree, i: nat)
    ensures Print(TIf(e, yes, no, next), i) ==
            [Spaces(i) + ("if (" + ShowEx(e) + ") {")] + Print(yes, i + 4) + [Spaces(i) + "} else {"] +
              Print(no, i + 4) +
            [Spaces(i) + "}"] + Print(next, i)
  {
    hide ShowEx, Spaces;
  }

  lemma PrintIfThen(e: Ex, yes: Tree, next: Tree, i: nat)
    ensures Print(TIfThen(e, yes, next), i) ==
            [Spaces(i) + ("if (" + ShowEx(e) + ") {")] + Print(yes, i + 4) + [Spaces(i) + "}"] + Print(next, i)
  {
    hide ShowEx, Spaces;
  }

  lemma PrintWhile(e: Ex, body: Tree, next: Tree, i: nat)
    ensures Print(TWhile(e, body, next), i) ==
            [Spaces(i) + ("while (" + ShowEx(e) + ") {")] + Print(body, i + 4) + [Spaces(i) + "}"] + Print(next, i)
  {
    hide ShowEx, Spaces;
  }

  lemma Indents(b: Builder, h: Builder, lines: seq<string>, indent: nat, id: nat)
    requires LinesAdded(b, h, lines, indent, id)
    ensures h.src.indent == indent && h.src.nextId == id
  {}

  lemma Added(b: Builder, h: Builder, t: Tree, id: nat)
    requires Adds(b, h, t, id)
    ensures LinesAdded(b, h, Print(t, b.src.indent), b.src.indent, id) && h.src.indent == b.src.indent &&
            h.src.nextId == id
  {}

  lemma {:induction false} IfThenPrints(e: Expr, t: Code, next: Code, ls: Locals, b: Builder)
    requires LoopOk(t, b.cfg.loop.InLoop?) && LoopOk(next, b.cfg.loop.InLoop?) && QuietConditions(t) &&
             QuietConditions(next)
    ensures var (tree, id) := Erase(IfThen(e, t, next), ValNames(ls.vals), VarNames(ls.vars), b.src.nextId);
            Adds(b, LowerIfThen(e, t, next, ls, b), tree, id) && LowerIfThen(e, t, next, ls, b).cfg.loop == b.cfg.loop
    decreases IfThen(e, t, next), 1
  {
    hide Erase, LinesAdded, Adds, Lower, IfThenHead, IfThenEnd, LoopOk, QuietConditions, EraseE, ShowEx, Print,
         ValNames, VarNames, Spaces, EraseAct;
    var vals, vars, i := ValNames(ls.vals), VarNames(ls.vars), b.src.indent;
    var b1 := IfThenHead(e, ls, b);
    var b2 := Lower(t, ls, b1);
    var b3 := IfThenEnd(b, b2);
    var b4 := Lower(next, ls, b3);
    var test := EraseE(e, vals);
    var head := [Spaces(i) + ("if (" + ShowEx(test) + ") {")];
    IfHeads(e, ls, b);
    Indents(b, b1, head, i + 4, b.src.nextId);
    LowerPrints(t, ls, b1);
    var (yes, id1) := Erase(t, vals, vars, b.src.nextId);
    Added(b1, b2, yes, id1);
    IfTails(b, b2);
    Indents(b2, b3, [Spaces(i) + "}"], i, id1);
    LowerPrints(next, ls, b3);
    var (rest, id2) := Erase(next, vals, vars, id1);
    Added(b3, b4, rest, id2);
    LinesAddedTwice(b, b1, b2, head, Print(yes, i + 4), i + 4, i + 4, b.src.nextId, id1);
    OneArm(b, b2, b3, b4, head + Print(yes, i + 4), [Spaces(i) + "}"], Print(rest, i), i, i + 4, id1, id2);
    EraseIfThen(e, t, next, vals, vars, b.src.nextId);
    PrintIfThen(test, yes, rest, i);
    AddsExtends(b, b4, TIfThen(test, yes, rest), id2);
  }

  /** A condition of gets prints nothing, and names its values after their variables. */
  lemma {:induction false} GetsPrint(rds: seq<Read>, ls: Locals, b: Builder)
    requires AllGets(rds)
    ensures var (b1, ls1) := LowerReads(rds, ls, b);
            b1.src == b.src && b1.cfg.loop == b.cfg.loop && b1.scope == b.scope &&
            ValNames(ls1.vals) == ValNames(ls.vals) + GetNames(rds, VarNames(ls.vars))
    decreases |rds|
  {
    hide GetCode, ReadCode, ValNames, VarNames;
    if rds != [] {
      var ls1, b1 := ReadLocals(rds[0], ls, b), LowerRead(rds[0], ls, b);
      var name := ReadName(rds[0], ls, b);
      assert rds[0].RGet?;
      PushedName(ls, Value(ReadCode(rds[0], ls, b.cfg.nextReg).res, name));
      NameOf(rds[0].x, ls.vars);
      GetsPrint(rds[1..], ls1, b1);
      var vals, tail := ValNames(ls.vals), GetNames(rds[1..], VarNames(ls.vars));
      assert vals + [name] + tail == vals + ([name] + tail);
    } else {
      assert ValNames(ls.vals) + [] == ValNames(ls.vals);
    }
  }

  lemma NameOf(x: nat, vars: seq<Variable>)
    ensures VarOf(VarNames(vars), x) == if x < |vars| then vars[x].name else ""
  {}

  /** A loop's first line, and that its header adds no other. */
  lemma WhileHeads(cnd: Cond, ls: Locals, b: Builder)
    requires AllGets(cnd.first)
    ensures var test := EraseE(cnd.test, ValNames(ls.vals) + GetNames(cnd.first, VarNames(ls.vars)));
            var h := WhileHead(cnd, ls, b);
            LinesAdded(b, h, [Spaces(b.src.indent) + ("while (" + ShowEx(test) + ") {")], b.src.indent + 4,
              b.src.nextId) &&
            h.cfg.loop.InLoop?
  {
    hide Show, ShowEx, EraseE, Emitted, LowerReads, ValNames, VarNames, GetNames;
    var b0 := SetLoc(b, CurrentLine(b) + 1, b.scope);
    GetsPrint(cnd.first, ls, b0);
    ShowErased(cnd.test, LowerReads(cnd.first, ls, b0).1.vals);
    GetsPrint(cnd.first, ls, WhileEntry(cnd, ls, b));
  }

  lemma {:induction false} WhilePrints(cnd: Cond, body: Code, next: Code, ls: Locals, b: Builder)
    requires AllGets(cnd.first) && LoopOk(body, true) && LoopOk(next, b.cfg.loop.InLoop?) && QuietConditions(body) &&
             QuietConditions(next)
    ensures var (tree, id) := Erase(While(cnd, body, next), ValNames(ls.vals), VarNames(ls.vars), b.src.nextId);
            Adds(b, LowerWhile(cnd, body, next, ls, b), tree, id) &&
            LowerWhile(cnd, body, next, ls, b).cfg.loop == b.cfg.loop
    decreases While(cnd, body, next), 1
  {
    hide Erase, LinesAdded, Adds, Lower, WhileHead, WhileEnd, LoopOk, QuietConditions, EraseE, ShowEx, GetNames, Print,
         ValNames, VarNames, Spaces, EraseAct;
    var vals, vars, i := ValNames(ls.vals), VarNames(ls.vars), b.src.indent;
    var b1 := WhileHead(cnd, ls, b);
    var b2 := Lower(body, ls, b1);
    var b3 := WhileEnd(b, b2);
    var b4 := Lower(next, ls, b3);
    var test := EraseE(cnd.test, vals + GetNames(cnd.first, vars));
    var head := [Spaces(i) + ("while (" + ShowEx(test) + ") {")];
    WhileHeads(cnd, ls, b);
    Indents(b, b1, head, i + 4, b.src.nextId);
    LowerPrints(body, ls, b1);
    var (inner, id1) := Erase(body, vals, vars, b.src.nextId);
    Added(b1, b2, inner, id1);
    IfTails(b, b2);
    Indents(b2, b3, [Spaces(i) + "}"], i, id1);
    LowerPrints(next, ls, b3);
    var (rest, id2) := Erase(next, vals, vars, id1);
    Added(b3, b4, rest, id2);
    LinesAddedTwice(b, b1, b2, head, Print(inner, i + 4), i + 4, i + 4, b.src.nextId, id1);
    OneArm(b, b2, b3, b4, head + Print(inner, i + 4), [Spaces(i) + "}"], Print(rest, i), i, i + 4, id1, id2);
    EraseWhile(cnd, body, next, vals, vars, b.src.nextId);
    PrintWhile(test, inner, rest, i);
    AddsExtends(b, b4, TWhile(test, inner, rest), id2);
  }
}
