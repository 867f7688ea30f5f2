/** The listing of a whole program can be read back: its text determines every function body. */
module RoundTrip {
  import opened Types
  import opened Source
  import opened Text
  import opened Lowering
  import opened Listings
  import opened Parser
  import DebugLines

  // ----- programs whose listing can be read -----

  predicate AllNames(names: seq<string>) { forall i :: 0 <= i < |names| ==> IsName(names[i]) }

  /** Every value used is in scope. */
  predicate ExprScoped(e: Expr, vals: nat) {
    match e
    case Val(i, _) => i < vals
    case Lit(_, _) => true
    case Arith(_, l, r) => ExprScoped(l, vals) && ExprScoped(r, vals)
    case PtrArith(_, l, r) => ExprScoped(l, vals) && ExprScoped(r, vals)
    case Rel(_, l, r) => ExprScoped(l, vals) && ExprScoped(r, vals)
    case Cast(_, e1) => ExprScoped(e1, vals)
    case BitCast(_, e1) => ExprScoped(e1, vals)
  }

  predicate ArgsScoped(args: seq<Expr>, vals: nat) { forall i :: 0 <= i < |args| ==> ExprScoped(args[i], vals) }

  predicate ReadsScoped(rds: seq<Read>, vars: nat) { forall i :: 0 <= i < |rds| ==> rds[i].RGet? && rds[i].x < vars }

  /** What C++ scoping guarantees, with identifiers for names and conditions that print no lines. */
  predicate Readable(c: Code, vals: nat, vars: nat)
    decreases c, 1
  {
    match c
    case Act(a, next) => ReadableAct(a, next, vals, vars)
    case Call(fn, args, next) => IsName(fn.name) && ArgsScoped(args, vals) && Readable(next, vals + 1, vars)
    case If(e, t, f, next) =>
      ExprScoped(e, vals) && Readable(t, vals, vars) && Readable(f, vals, vars) && Readable(next, vals, vars)
    case IfThen(e, t, next) => ExprScoped(e, vals) && Readable(t, vals, vars) && Readable(next, vals, vars)
    case While(cnd, body, next) =>
      ReadsScoped(cnd.first, vars) && ExprScoped(cnd.test, vals + |cnd.first|) && Readable(body, vals, vars) &&
      Readable(next, vals, vars)
    case Return(e) => ExprScoped(e, vals)
    case _ => true
  }

  predicate ReadableAct(a: Action, next: Code, vals: nat, vars: nat)
    decreases Act(a, next), 0
  {
    match a
    case ReadValue(RGet(x)) => x < vars && Readable(next, vals + 1, vars)
    case ReadValue(RLoad(p)) => ExprScoped(p, vals) && Readable(next, vals + 1, vars)
    case Declare(_, name) => IsName(name) && Readable(next, vals, vars + 1)
    case Set(x, e) => x < vars && ExprScoped(e, vals) && Readable(next, vals, vars)
    case Store(e, p) => ExprScoped(e, vals) && ExprScoped(p, vals) && Readable(next, vals, vars)
    case MemCmp(p, q, n) =>
      ExprScoped(p, vals) && ExprScoped(q, vals) && ExprScoped(n, vals) && Readable(next, vals + 1, vars)
  }

  // ----- their trees can be read back -----

  lemma {:induction false} ExprReadable(e: Expr, vals: seq<string>)
    requires AllNames(vals) && ExprScoped(e, |vals|)
    ensures GoodEx(EraseE(e, vals))
    decreases e
  {
    hide AllIdent, TyName;
    match e
    case Val(_, _) =>
    case Lit(_, _) => BoolNames();
    case Arith(_, l, r) => ExprReadable(l, vals); ExprReadable(r, vals);
    case PtrArith(_, l, r) => ExprReadable(l, vals); ExprReadable(r, vals);
    case Rel(_, l, r) => ExprReadable(l, vals); ExprReadable(r, vals);
    case Cast(to, e1) => TypeReadable(to); ExprReadable(e1, vals);
    case BitCast(to, e1) => TypeReadable(to); ExprReadable(e1, vals);
  }

  lemma BoolNames()
    ensures IsName("true") && IsName("false") && IsName("memcmp_ret")
  {}

  lemma {:induction false} ArgsReadable(args: seq<Expr>, vals: seq<string>)
    requires AllNames(vals) && ArgsScoped(args, |vals|)
    ensures GoodArgs(EraseArgs(args, vals))
    decreases |args|
  {
    hide EraseE, GoodEx, ExprScoped, IsName;
    if args != [] {
      ExprReadable(args[0], vals);
      ArgsReadable(args[1..], vals);
    }
  }

  lemma NumberedName(prefix: string, n: nat)
    requires IsName(prefix)
    ensures IsName(prefix + NatText(n))
  {
    DigitsAreIdent(n);
  }

  lemma RetName(fn: string)
    requires IsName(fn)
    ensures IsName(fn + "_ret")
  {}

  lemma AddName(names: seq<string>, name: string)
    requires AllNames(names) && IsName(name)
    ensures AllNames(names + [name])
  {
    hide IsName;
  }

  lemma {:induction false} GetNamesGood(rds: seq<Read>, vals: seq<string>, vars: seq<string>)
    requires AllNames(vals) && AllNames(vars) && ReadsScoped(rds, |vars|)
    ensures AllNames(vals + GetNames(rds, vars)) && |GetNames(rds, vars)| == |rds|
    decreases |rds|
  {
    hide IsName;
    if rds == [] {
      assert vals + [] == vals;
    } else {
      var name := vars[rds[0].x];
      AddName(vals, name);
      GetNamesGood(rds[1..], vals + [name], vars);
      assert vals + [name] + GetNames(rds[1..], vars) == vals + ([name] + GetNames(rds[1..], vars));
    }
  }

  lemma {:induction false} TreeReadable(c: Code, vals: seq<string>, vars: seq<string>, id: nat)
    requires AllNames(vals) && AllNames(vars) && Readable(c, |vals|, |vars|)
    ensures GoodTree(Erase(c, vals, vars, id).0)
    decreases c, 1
  {
    hide AllNames, EraseE, GoodEx, ExprScoped, IsName, EraseArgs, GoodArgs, ArgsScoped, GetNames, ReadsScoped, EraseAct,
         ReadableAct;
    match c
    case Act(a, next) => ActReadable(a, next, vals, vars, id);
    case Call(fn, args, next) =>
      ArgsReadable(args, vals);
      RetName(fn.name);
      AddName(vals, fn.name + "_ret");
      TreeReadable(next, vals + [fn.name + "_ret"], vars, id);
    case If(e, t, f, next) =>
      ExprReadable(e, vals);
      TreeReadable(t, vals, vars, id);
      var id1 := Erase(t, vals, vars, id).1;
      TreeReadable(f, vals, vars, id1);
      TreeReadable(next, vals, vars, Erase(f, vals, vars, id1).1);
    case IfThen(e, t, next) =>
      ExprReadable(e, vals);
      TreeReadable(t, vals, vars, id);
      TreeReadable(next, vals, vars, Erase(t, vals, vars, id).1);
    case While(cnd, body, next) =>
      GetNamesGood(cnd.first, vals, vars);
      ExprReadable(cnd.test, vals + GetNames(cnd.first, vars));
      TreeReadable(body, vals, vars, id);
      TreeReadable(next, vals, vars, Erase(body, vals, vars, id).1);
    case Return(e) => ExprReadable(e, vals);
    case _ =>
  }

  lemma {:induction false} ActReadable(a: Action, next: Code, vals: seq<string>, vars: seq<string>, id: nat)
    requires AllNames(vals) && AllNames(vars) && ReadableAct(a, next, |vals|, |vars|)
    ensures GoodTree(EraseAct(a, next, vals, vars, id).0)
    decreases Act(a, next), 0
  {
    hide EraseE, GoodEx, ExprScoped, IsName, TyName, Erase, Readable;
    match a
    case ReadValue(RGet(x)) =>
      AddName(vals, vars[x]);
      TreeReadable(next, vals + [vars[x]], vars, id);
    case ReadValue(RLoad(p)) =>
      ExprReadable(p, vals);
      LoadNames(id);
      AddName(vals, ValName(id));
      TreeReadable(next, vals + [ValName(id)], vars, id + 1);
    case Declare(ty, name) =>
      TypeReadable(ty);
      AddName(vars, name);
      TreeReadable(next, vals, vars + [name], id);
    case Set(x, e) =>
      ExprReadable(e, vals);
      TreeReadable(next, vals, vars, id);
    case Store(e, p) =>
      ExprReadable(e, vals);
      ExprReadable(p, vals);
      TreeReadable(next, vals, vars, id);
    case MemCmp(p, q, n) =>
      ExprReadable(p, vals);
      ExprReadable(q, vals);
      ExprReadable(n, vals);
      BoolNames();
      AddName(vals, "memcmp_ret");
      TreeReadable(next, vals + ["memcmp_ret"], vars, id);
  }

  lemma LoadNames(id: nat)
    ensures IsName(ValName(id)) && IsName(ArgName(id))
  {
    assert IsName("val") && IsName("arg");
    NumberedName("val", id);
    NumberedName("arg", id);
  }

  lemma {:induction false} ReadableQuiet(c: Code, vals: nat, vars: nat)
    requires Readable(c, vals, vars)
    ensures QuietConditions(c)
    decreases c
  {
    hide ExprScoped, IsName, ArgsScoped;
    match c
    case Act(a, next) =>
      ReadableQuiet(next, if a.ReadValue? || a.MemCmp? then vals + 1 else vals, if a.Declare? then vars + 1 else vars);
    case Call(_, _, next) => ReadableQuiet(next, vals + 1, vars);
    case If(_, t, f, next) => ReadableQuiet(t, vals, vars); ReadableQuiet(f, vals, vars);
        ReadableQuiet(next, vals, vars);
    case IfThen(_, t, next) => ReadableQuiet(t, vals, vars); ReadableQuiet(next, vals, vars);
    case While(_, body, next) => ReadableQuiet(body, vals, vars); ReadableQuiet(next, vals, vars);
    case _ =>
  }

  // ----- no line of theirs is broken -----

  lemma {:induction false} ExOneLine(x: Ex)
    requires GoodEx(x)
    ensures '\n' !in ShowEx(x)
    decreases x
  {
    hide TyName, SymbolText;
    match x
    case Num(n) => DigitsAreIdent(if n < 0 then -n else n);
    case Name(_) =>
    case Bin(op, l, r) => SymbolRead(op); ExOneLine(l); ExOneLine(r);
    case CastTo(_, ty, e) => TypeReadable(ty); ExOneLine(e);
  }

  lemma {:induction false} ListOneLine(args: seq<Ex>)
    requires GoodArgs(args)
    ensures '\n' !in ShowList(args)
    decreases |args|
  {
    hide GoodEx, ShowEx;
    if args != [] {
      ExOneLine(args[0]);
      ListOneLine(args[1..]);
    }
  }

  lemma SimpleOneLine(s: Simple)
    requires GoodSimple(s)
    ensures '\n' !in LineText(s)
  {
    hide GoodEx, ShowEx, GoodArgs, ShowList, TakeIdent, TyName;
    match s
    case SDeclare(ty, _) => TypeReadable(ty);
    case SSet(_, e) => ExOneLine(e);
    case SStore(p, e) => ExOneLine(p); ExOneLine(e);
    case SLoad(_, p) => ExOneLine(p);
    case SCall(_, args) => ListOneLine(args);
    case SMemCmp(a, b, c) => ExOneLine(a); ExOneLine(b); ExOneLine(c);
    case SReturn(e) => ExOneLine(e);
    case _ =>
  }

  lemma {:induction false} TreeOneLine(t: Tree, indent: nat)
    requires GoodTree(t)
    ensures forall l :: l in Print(t, indent) ==> '\n' !in l
    decreases t
  {
    hide GoodEx, ShowEx, GoodSimple, LineText;
    match t
    case End =>
    case One(s, next) => SimpleOneLine(s); TreeOneLine(next, indent);
    case TIf(e, yes, no, next) => ExOneLine(e); TreeOneLine(yes, indent + 4); TreeOneLine(no, indent + 4);
        TreeOneLine(next, indent);
    case TIfThen(e, yes, next) => ExOneLine(e); TreeOneLine(yes, indent + 4); TreeOneLine(next, indent);
    case TWhile(e, body, next) => ExOneLine(e); TreeOneLine(body, indent + 4); TreeOneLine(next, indent);
  }

  // ----- whole programs -----

  /** A function as its listing gives it: its type, its name and the statements of its body. */
  datatype Function = Function(ret: Ty, name: string, params: seq<Ty>, body: Tree)

  /** Parameters from number i on. */
  function ParseParams(s: string, i: nat): Option<seq<Ty>>
    decreases |s|
  {
    if s == ") {" then Some([])
    else
      var (ty, r) := TakeUntil(' ', s);
      match ReadTy(ty)
      case None => None
      case Some(t) =>
        if r == "" then None
        else
          var (arg, r1) := TakeIdent(r[1..]);
          if !StartsWith(arg, "arg") || arg == "arg" || ReadDigits(arg[3..], 0) != (i, "") then None
          else if r1 == ") {" then Some([t])
          else if !StartsWith(r1, ", ") then None
          else match ParseParams(r1[2..], i + 1)
            case Some(ts) => Some([t] + ts)
            case None => None
  }

  /** ret name(ty arg0, ty arg1) { */
  function ParseHeader(s: string): Option<(Ty, string, seq<Ty>)> {
    var (ty, r) := TakeUntil(' ', s);
    match ReadTy(ty)
    case None => None
    case Some(ret) =>
      if r == "" then None
      else
        var (name, r1) := TakeIdent(r[1..]);
        if !StartsWith(r1, "(") then None
        else match ParseParams(r1[1..], 0)
          case Some(params) => Some((ret, name, params))
          case None => None
  }

  /** Functions one after the other, each closed by a line of its own. */
  function ParseProgram(lines: seq<string>): Option<seq<Function>>
    decreases |lines|
  {
    if lines == [] then Some([])
    else match (ParseHeader(lines[0]), ParseBlock(lines[1..]))
      case (Some((ret, name, params)), Some((t, r))) =>
        if r == [] || r[0] != "}" then None
        else (match ParseProgram(r[1..])
              case Some(es) => Some([Function(ret, name, params, t)] + es)
              case None => None)
      case _ => None
  }

  predicate ReadableProgram(fns: seq<FnDef>) {
    forall k :: 0 <= k < |fns| ==>
      IsName(fns[k].name) && LoopOk(fns[k].body, false) && Readable(fns[k].body, |fns[k].params|, 0)
  }

  function ArgNames(n: nat): (names: seq<string>)
    ensures |names| == n
  {
    seq(n, i requires 0 <= i < n => ArgName(i))
  }

  function HeaderText(ret: Ty, name: string, params: seq<Ty>): string {
    TyName(ret) + " " + name + "(" + ParamText(params, 0) + ") {"
  }

  function HeaderOf(f: FnDef): string { HeaderText(f.ret, f.name, f.params) }

  /** A function's statements, and how many loads the program has had by its end: load's names are
      numbered through the whole program. */
  function BodyTree(f: FnDef, id: nat): (Tree, nat) { Erase(f.body, ArgNames(|f.params|), [], id) }

  function Loads(fns: seq<FnDef>, k: nat): nat
    requires k <= |fns|
  {
    if k == 0 then 0 else BodyTree(fns[k - 1], Loads(fns, k - 1)).1
  }

  /** The first k functions, types erased within their bodies. */
  function Entries(fns: seq<FnDef>, k: nat): (es: seq<Function>)
    requires k <= |fns|
    ensures |es| == k
  {
    if k == 0 then []
    else
      var f := fns[k - 1];
      Entries(fns, k - 1) + [Function(f.ret, f.name, f.params, BodyTree(f, Loads(fns, k - 1)).0)]
  }

  function EntryLines(e: Function): seq<string> {
    [HeaderText(e.ret, e.name, e.params)] + Print(e.body, 4) + ["}"]
  }

  function ProgramLines(es: seq<Function>): seq<string> {
    if es == [] then [] else ProgramLines(es[..|es| - 1]) + EntryLines(es[|es| - 1])
  }

  lemma ArgNamesOf(n: nat)
    ensures ValNames(Params(n).vals) == ArgNames(n) && VarNames(Params(n).vars) == [] && AllNames(ArgNames(n))
  {
    forall i | 0 <= i < n
      ensures IsName(ArgNames(n)[i])
    {
      LoadNames(i);
    }
  }

  lemma Unindented(text: string)
    ensures Spaces(0) + text == text
  {}

  /** One function's lines, given the listing so far. */
  lemma FunctionPrints(fns: seq<FnDef>, k: nat)
    requires k < |fns| && ReadableProgram(fns) && Before(fns, k).src.indent == 0
    ensures var src := Before(fns, k).src;
            var (t, id) := BodyTree(fns[k], src.nextId);
            var e := Function(fns[k].ret, fns[k].name, fns[k].params, t);
            Before(fns, k + 1).src == Listing(src.lines + EntryLines(e), 0, id)
  {
    hide Lower, Erase, ParamText, TyName, Readable, LoopOk, QuietConditions, ValNames, VarNames, Print, Spaces;
    var f, src := fns[k], Before(fns, k).src;
    var ls, b := Params(|f.params|), BeginFunction(f, Before(fns, k));
    DebugLines.NothingLeftOver(fns, k);
    Unindented(HeaderOf(f));
    Unindented("}");
    ArgNamesOf(|f.params|);
    ReadableQuiet(f.body, |f.params|, 0);
    LowerPrints(f.body, ls, b);
    var (t, id) := BodyTree(f, src.nextId);
    assert b.src == Listing(src.lines + [HeaderOf(f)], 4, src.nextId);
    assert src.lines + [HeaderOf(f)] + Print(t, 4) + ["}"] == src.lines +
           EntryLines(Function(f.ret, f.name, f.params, t));
  }

  lemma {:induction false} ProgramPrints(fns: seq<FnDef>, k: nat)
    requires k <= |fns| && ReadableProgram(fns)
    ensures Before(fns, k).src == Listing(ProgramLines(Entries(fns, k)), 0, Loads(fns, k))
    decreases k
  {
    hide BodyTree, EntryLines, HeaderOf, ReadableProgram, BodyOf, EndFunction;
    if k > 0 {
      ProgramPrints(fns, k - 1);
      FunctionPrints(fns, k - 1);
      assert Entries(fns, k)[..k - 1] == Entries(fns, k - 1);
    }
  }

  predicate GoodEntry(e: Function) { IsName(e.name) && GoodTree(e.body) }

  lemma {:induction false} ParamsOneLine(params: seq<Ty>, i: nat)
    ensures '\n' !in ParamText(params, i)
    decreases |params| - i
  {
    hide TyName, ArgName, IsName;
    if i < |params| {
      TypeReadable(params[i]);
      LoadNames(i);
      NameOneLine(ArgName(i));
      ParamsOneLine(params, i + 1);
    }
  }

  lemma NameOneLine(s: string)
    requires IsName(s)
    ensures '\n' !in s
  {}

  lemma {:induction false} EntriesGood(fns: seq<FnDef>, k: nat)
    requires k <= |fns| && ReadableProgram(fns)
    ensures forall i :: 0 <= i < k ==> GoodEntry(Entries(fns, k)[i])
    decreases k
  {
    hide Erase, Readable, LoopOk, GoodTree, IsName;
    if k > 0 {
      var f := fns[k - 1];
      EntriesGood(fns, k - 1);
      ArgNamesOf(|f.params|);
      TreeReadable(f.body, ArgNames(|f.params|), [], Loads(fns, k - 1));
    }
  }

  lemma HeaderOneLine(ret: Ty, name: string, params: seq<Ty>)
    requires IsName(name)
    ensures '\n' !in HeaderText(ret, name, params)
  {
    hide TyName, ParamText, IsName;
    TypeReadable(ret);
    ParamsOneLine(params, 0);
    NameOneLine(name);
  }

  lemma {:induction false} ProgramOneLine(es: seq<Function>)
    requires forall i :: 0 <= i < |es| ==> GoodEntry(es[i])
    ensures forall l :: l in ProgramLines(es) ==> '\n' !in l
    decreases |es|
  {
    hide Print, GoodTree, HeaderText, IsName;
    if es != [] {
      var n := |es| - 1;
      ProgramOneLine(es[..n]);
      TreeOneLine(es[n].body, 4);
      HeaderOneLine(es[n].ret, es[n].name, es[n].params);
    }
  }

  // ----- first lines -----

  lemma ArgRead(i: nat)
    ensures var arg := ArgName(i);
            StartsWith(arg, "arg") && arg != "arg" && ReadDigits(arg[3..], 0) == (i, "") && AllIdent(arg)
  {
    hide NatText, ReadDigits;
    DigitsRead(i, "");
    LoadNames(i);
    assert ArgName(i)[3..] == NatText(i) && NatText(i) + "" == NatText(i);
  }

  /** A type, a name and what follows them. */
  lemma TypeThenName(t: Ty, name: string, rest: string)
    requires AllIdent(name) && rest != "" && !IsIdent(rest[0])
    ensures TakeUntil(' ', TyName(t) + " " + name + rest) == (TyName(t), " " + (name + rest))
    ensures TakeIdent((" " + (name + rest))[1..]) == (name, rest) && ReadTy(TyName(t)) == Some(t)
  {
    hide TyName, TakeUntil, TakeIdent, ReadTy;
    TypeReadable(t);
    TypeRead(t);
    assert TyName(t) + " " + name + rest == TyName(t) + (" " + (name + rest));
    TakeUntilAll(' ', TyName(t), " " + (name + rest));
    assert (" " + (name + rest))[1..] == name + rest;
    TakeIdentAll(name, rest);
  }

  lemma NotTheEnd(t: Ty, rest: string)
    ensures TyName(t) + rest != ") {"
  {
    hide TyName;
    var w, stars := TypeWord(t);
    assert (TyName(t) + rest)[0] == w[0] && IsIdent(w[0]);
    assert ") {"[0] == ')';
  }

  lemma LastParam(t: Ty, i: nat)
    ensures ParseParams(TyName(t) + " " + ArgName(i) + ") {", i) == Some([t])
  {
    hide TyName, ArgName, TakeUntil, TakeIdent, ReadTy, ReadDigits;
    var rest := ") {";
    ArgRead(i);
    TypeThenName(t, ArgName(i), rest);
    NotTheEnd(t, " " + ArgName(i) + rest);
    assert TyName(t) + " " + ArgName(i) + rest == TyName(t) + (" " + ArgName(i) + rest);
  }

  lemma NextParam(t: Ty, i: nat, more: string, ts: seq<Ty>)
    requires ParseParams(more, i + 1) == Some(ts)
    ensures ParseParams(TyName(t) + " " + ArgName(i) + (", " + more), i) == Some([t] + ts)
  {
    hide TyName, ArgName, TakeUntil, TakeIdent, ReadTy, ReadDigits;
    var rest := ", " + more;
    ArgRead(i);
    TypeThenName(t, ArgName(i), rest);
    NotTheEnd(t, " " + ArgName(i) + rest);
    assert TyName(t) + " " + ArgName(i) + rest == TyName(t) + (" " + ArgName(i) + rest);
    assert rest[0] != ")"[0] && rest[2..] == more;
  }

  lemma NoParam(i: nat)
    ensures ParseParams(") {", i) == Some([])
  {}

  lemma ParamTextOf(params: seq<Ty>, i: nat)
    requires i < |params|
    ensures var start, more := TyName(params[i]) + " " + ArgName(i), ParamText(params, i + 1) + ") {";
            ParamText(params, i) + ") {" == start + if i + 1 == |params| then ") {" else ", " + more
  {
    hide TyName, ArgName;
    if i + 1 == |params| {
      assert ParamText(params, i + 1) == "";
    }
  }

  lemma {:induction false} ParamsRead(params: seq<Ty>, i: nat)
    requires i <= |params|
    ensures ParseParams(ParamText(params, i) + ") {", i) == Some(params[i..])
    decreases |params| - i
  {
    hide TyName, ArgName, ParseParams;
    if i == |params| {
      NoParam(i);
      assert "" + ") {" == ") {";
    } else {
      ParamTextOf(params, i);
      hide ParamText;
      if i + 1 == |params| {
        LastParam(params[i], i);
        assert params[i..] == [params[i]];
      } else {
        ParamsRead(params, i + 1);
        NextParam(params[i], i, ParamText(params, i + 1) + ") {", params[i + 1..]);
        assert params[i..] == [params[i]] + params[i + 1..];
      }
    }
  }

  lemma HeaderRead(ret: Ty, name: string, params: seq<Ty>)
    requires IsName(name)
    ensures ParseHeader(HeaderText(ret, name, params)) == Some((ret, name, params))
  {
    hide TyName, ParamText, TakeUntil, TakeIdent, ReadTy, ParseParams;
    var rest := "(" + (ParamText(params, 0) + ") {");
    assert HeaderText(ret, name, params) == TyName(ret) + " " + name + rest;
    TypeThenName(ret, name, rest);
    ParamsRead(params, 0);
    assert StartsWith(rest, "(") && rest[1..] == ParamText(params, 0) + ") {" && params[0..] == params;
  }

  lemma ParseEntry(e: Function, rest: seq<string>, es: seq<Function>)
    requires GoodEntry(e) && ParseProgram(rest) == Some(es)
    ensures ParseProgram(EntryLines(e) + rest) == Some([e] + es)
  {
    hide ParseBlock, Print, GoodTree, HeaderText, ParseHeader;
    var r := ["}"] + rest;
    HeaderRead(e.ret, e.name, e.params);
    var all := EntryLines(e) + rest;
    Unindented("}");
    EndLines(0);
    ParsePrint(e.body, 4, r);
    assert all[0] == HeaderText(e.ret, e.name, e.params) && all[1..] == Print(e.body, 4) + r;
    assert r[1..] == rest;
  }

  lemma {:induction false} ParsePrograms(es: seq<Function>, rest: seq<string>, more: seq<Function>)
    requires (forall i :: 0 <= i < |es| ==> GoodEntry(es[i])) && ParseProgram(rest) == Some(more)
    ensures ParseProgram(ProgramLines(es) + rest) == Some(es + more)
    decreases |es|
  {
    hide ParseProgram, EntryLines, GoodEntry;
    if es == [] {
      assert [] + rest == rest && es + more == more;
    } else {
      var n := |es| - 1;
      ParseEntry(es[n], rest, more);
      ParsePrograms(es[..n], EntryLines(es[n]) + rest, [es[n]] + more);
      assert ProgramLines(es) + rest == ProgramLines(es[..n]) + (EntryLines(es[n]) + rest);
      assert es[..n] + ([es[n]] + more) == es + more;
    }
  }

  lemma NoFunctions()
    ensures ParseProgram([]) == Some([])
  {}

  /** A text made of readable functions reads back to them. */
  lemma LinesRead(es: seq<Function>)
    requires forall i :: 0 <= i < |es| ==> GoodEntry(es[i])
    ensures ParseProgram(SplitLines(Join(ProgramLines(es)))) == Some(es)
  {
    hide ParseProgram, SplitLines, Join, GoodEntry, EntryLines;
    ProgramOneLine(es);
    LinesAreIndexed(ProgramLines(es));
    NoFunctions();
    hide ProgramLines;
    ParsePrograms(es, [], []);
    assert ProgramLines(es) + [] == ProgramLines(es) && es + [] == es;
  }

  /** Reading the text that get() returns gives back every function: its type and name and the tree of its
      statements, operators and types with them. What the text does not show stays unknown: the types of
      literals, the places where variables were read, and which of several equally named variables or functions
      is meant. */
  lemma ListingRoundTrip(fns: seq<FnDef>)
    requires ReadableProgram(fns)
    ensures ParseProgram(SplitLines(Join(Before(fns, |fns|).src.lines))) == Some(Entries(fns, |fns|))
  {
    hide ReadableProgram, ParseProgram, SplitLines, Join, Before, Entries, GoodEntry, ProgramLines;
    ProgramPrints(fns, |fns|);
    EntriesGood(fns, |fns|);
    LinesRead(Entries(fns, |fns|));
  }
}
