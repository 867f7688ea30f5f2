/** What the builder does, as functions on its state: the specification the
    imperative builder is proved against and every theorem about it is stated over. */
module Lowering {
  import opened Types
  import opened Source
  import opened Ir
  import opened Text

  /** Where break_ and continue_ go. */
  datatype Loop = NoLoop | InLoop(continueBlock: Label, breakBlock: Label)

  /** The function under construction. `code` has an entry for every block created, detached
      ones included; the entry block's allocas are kept apart, in `slots`. */
  datatype Cfg = Cfg(
    code: Blocks, order: seq<Label>, cur: Label,
    nextLabel: nat, nextReg: nat, slots: seq<Ty>,
    exited: bool, loop: Loop, loc: DebugLoc)

  /** The listing so far, one string a line. */
  datatype Listing = Listing(lines: seq<string>, indent: nat, nextId: nat)

  datatype Builder = Builder(cfg: Cfg, src: Listing, scope: Scope)

  // ----- expressions -----

  datatype ExprCode = ExprCode(ops: seq<Op>, res: Operand, next: nat)

  function SelectArith(op: ArithOp, t: Ty): BinOp {
    match op
    case PlusOp => Add
    case MinusOp => Sub
    case TimesOp => Mul
    case DivOp => if IsSigned(t) then SDiv else UDiv
    case ModOp => if IsSigned(t) then SRem else URem
    case AndOp => And
    case OrOp => Or
    case XorOp => Xor
  }

  function SelectRel(op: RelOp, t: Ty): Pred {
    match op
    case EqOp => EQ
    case NeOp => NE
    case GeOp => if IsSigned(t) then SGE else UGE
    case GtOp => if IsSigned(t) then SGT else UGT
    case LeOp => if IsSigned(t) then SLE else ULE
    case LtOp => if IsSigned(t) then SLT else ULT
  }

  /** CreateSExtOrTrunc / CreateZExtOrTrunc: no instruction when the widths agree. */
  function Convert(from: Ty, to: Ty, c: ExprCode): ExprCode {
    if Width(from) == Width(to) then c
    else
      var op := if Width(from) > Width(to) then ITrunc(c.next, Width(from), Width(to), c.res)
                else if IsSigned(from) then ISExt(c.next, Width(from), Width(to), c.res)
                else IZExt(c.next, Width(from), Width(to), c.res);
      ExprCode(c.ops + [op], Reg(c.next), c.next + 1)
  }

  /** CreateBitCast does nothing between identical LLVM types; signedness and constness are not part of those. */
  predicate SameLlvm(a: Ty, b: Ty) {
    match (a, b)
    case (TPtr(x), TPtr(y)) => SameLlvm(x, y)
    case (TPtr(_), _) => false
    case (_, TPtr(_)) => false
    case _ => a.TVoid? == b.TVoid? && Width(a) == Width(b)
  }

  function ConvertBits(from: Ty, to: Ty, c: ExprCode): ExprCode {
    if SameLlvm(from, to) then c
    else ExprCode(c.ops + [IBitCast(c.next, c.res)], Reg(c.next), c.next + 1)
  }

  /** A pointer offset narrower than 64 bits is widened before scaling. */
  function Widen(t: Ty, c: ExprCode): ExprCode {
    if Size(t) < 8 then
      ExprCode(c.ops + [if IsSigned(t) then ISExt(c.next, Width(t), 64, c.res) else IZExt(c.next, Width(t), 64, c.res)],
               Reg(c.next), c.next + 1)
    else c
  }

  /** The address computation, given the widened offset `b` and then the base `a`. */
  function Addressed(minus: bool, scale: nat, b: ExprCode, a: ExprCode): ExprCode {
    if minus then
      ExprCode(b.ops + a.ops + [IBin(a.next, Sub, 64, Const(0), b.res), IGep(a.next + 1, scale, a.res, Reg(a.next))],
               Reg(a.next + 1), a.next + 2)
    else
      ExprCode(b.ops + a.ops + [IGep(a.next, scale, a.res, b.res)], Reg(a.next), a.next + 1)
  }

  /** eval(): the three-address code of a tree, its result, and the next free register. */
  function Emitted(e: Expr, vals: seq<Value>, r: nat): ExprCode {
    match e
    case Val(i, _) => ExprCode([], if i < |vals| then vals[i].op else Const(0), r)
    case Lit(ty, n) => ExprCode([], Const(PatOf(ty, n)), r)
    case Arith(op, l, rh) =>
      var a := Emitted(l, vals, r);
      var b := Emitted(rh, vals, a.next);
      ExprCode(a.ops + b.ops + [IBin(b.next, SelectArith(op, TypeOf(l)), Width(TypeOf(l)), a.res, b.res)],
               Reg(b.next), b.next + 1)
    case PtrArith(minus, l, rh) =>
      var b := Widen(TypeOf(rh), Emitted(rh, vals, r));
      var a := Emitted(l, vals, b.next);
      Addressed(minus, Size(Pointee(TypeOf(l))), b, a)
    case Rel(op, l, rh) =>
      var a := Emitted(l, vals, r);
      var b := Emitted(rh, vals, a.next);
      ExprCode(a.ops + b.ops + [ICmp(b.next, SelectRel(op, TypeOf(l)), Width(TypeOf(l)), a.res, b.res)],
               Reg(b.next), b.next + 1)
    case Cast(to, e1) => Convert(TypeOf(e1), to, Emitted(e1, vals, r))
    case BitCast(to, e1) => ConvertBits(TypeOf(e1), to, Emitted(e1, vals, r))
  }

  datatype ArgsCode = ArgsCode(ops: seq<Op>, res: seq<Operand>, next: nat)

  function EmittedArgs(args: seq<Expr>, vals: seq<Value>, r: nat): (c: ArgsCode)
    ensures |c.res| == |args|
  {
    if args == [] then ArgsCode([], [], r)
    else
      var a := Emitted(args[0], vals, r);
      var rest := EmittedArgs(args[1..], vals, a.next);
      ArgsCode(a.ops + rest.ops, [a.res] + rest.res, rest.next)
  }

  // ----- the insertion point -----

  function WithLoc(ops: seq<Op>, loc: DebugLoc): (s: seq<Ins>)
    ensures |s| == |ops|
  {
    seq(|ops|, i requires 0 <= i < |ops| => Ins(ops[i], loc))
  }

  /** Append instructions to the insertion block, under the current debug location. */
  function Append(g: Cfg, ops: seq<Op>, next: nat): Cfg {
    var before := if g.cur in g.code then g.code[g.cur] else [];
    g.(code := g.code[g.cur := before + WithLoc(ops, g.loc)], nextReg := next)
  }

  function Emit(b: Builder, ops: seq<Op>, next: nat): Builder { b.(cfg := Append(b.cfg, ops, next)) }

  /** The number the next line will get. */
  function CurrentLine(b: Builder): nat { |b.src.lines| + 1 }

  function AddLine(b: Builder, text: string): Builder {
    b.(src := b.src.(lines := b.src.lines + [Spaces(b.src.indent) + text]))
  }

  function SetLoc(b: Builder, line: nat, scope: Scope): Builder { b.(cfg := b.cfg.(loc := Loc(line, scope))) }

  /** A line of its own: add it and make it the current debug location. */
  function Line(b: Builder, text: string): Builder { SetLoc(AddLine(b, text), CurrentLine(b), b.scope) }

  function Indent(b: Builder): Builder { b.(src := b.src.(indent := b.src.indent + 4)) }

  function Outdent(b: Builder): Builder {
    b.(src := b.src.(indent := if b.src.indent >= 4 then b.src.indent - 4 else 0))
  }

  /** A new block that is not yet in the function's list. */
  function Detached(g: Cfg, l: Label): Cfg { g.(code := g.code[l := []], nextLabel := l.id + 1) }

  function PushBlock(g: Cfg, l: Label): Cfg { g.(order := g.order + [l]) }

  // ----- straight-line statements -----

  function PushValue(ls: Locals, v: Value): Locals { ls.(vals := ls.vals + [v]) }

  function GetCode(x: nat, ls: Locals, r: nat): ExprCode {
    if x < |ls.vars| then ExprCode([ILoad(r, ls.vars[x].ty, SlotPtr(ls.vars[x].slot))], Reg(r), r + 1)
    else ExprCode([], Const(0), r)
  }

  function LoadCode(p: Expr, ls: Locals, r: nat): ExprCode {
    var c := Emitted(p, ls.vals, r);
    ExprCode(c.ops + [ILoad(c.next, Pointee(TypeOf(p)), c.res)], Reg(c.next), c.next + 1)
  }

  function ReadCode(rd: Read, ls: Locals, r: nat): ExprCode {
    match rd
    case RGet(x) => GetCode(x, ls, r)
    case RLoad(p) => LoadCode(p, ls, r)
  }

  function LoadName(b: Builder): string { "val" + NatText(b.src.nextId) }

  function ReadName(rd: Read, ls: Locals, b: Builder): string {
    match rd
    case RGet(x) => if x < |ls.vars| then ls.vars[x].name else ""
    case RLoad(_) => LoadName(b)
  }

  /** get() prints nothing and keeps the current location; load() is a line. */
  function LowerRead(rd: Read, ls: Locals, b: Builder): Builder {
    var c := ReadCode(rd, ls, b.cfg.nextReg);
    match rd
    case RGet(_) => Emit(b, c.ops, c.next)
    case RLoad(p) =>
      var b1 := b.(src := b.src.(nextId := b.src.nextId + 1));
      Emit(Line(b1, LoadName(b) + " = *" + Show(p, ls.vals)), c.ops, c.next)
  }

  function ReadLocals(rd: Read, ls: Locals, b: Builder): Locals {
    PushValue(ls, Value(ReadCode(rd, ls, b.cfg.nextReg).res, ReadName(rd, ls, b)))
  }

  function LowerReads(rds: seq<Read>, ls: Locals, b: Builder): (Builder, Locals) {
    if rds == [] then (b, ls)
    else LowerReads(rds[1..], ReadLocals(rds[0], ls, b), LowerRead(rds[0], ls, b))
  }

  /** The instructions of an action in order, and the next free register. */
  function ActionCode(a: Action, ls: Locals, r: nat): ExprCode {
    match a
    case ReadValue(rd) => ReadCode(rd, ls, r)
    case Declare(_, _) => ExprCode([], Const(0), r)
    case Set(x, e) =>
      var c := Emitted(e, ls.vals, r);
      var slot := if x < |ls.vars| then ls.vars[x].slot else 0;
      ExprCode(c.ops + [IStore(TypeOf(e), c.res, SlotPtr(slot))], Const(0), c.next)
    case Store(e, p) =>
      var c := Emitted(e, ls.vals, r);
      var d := Emitted(p, ls.vals, c.next);
      ExprCode(c.ops + d.ops + [IStore(TypeOf(e), c.res, d.res)], Const(0), d.next)
    case MemCmp(p, q, n) =>
      var cs := EmittedArgs([p, q, n], ls.vals, r);
      ExprCode(cs.ops + [IMemCmp(cs.next, cs.res[0], cs.res[1], cs.res[2])], Reg(cs.next), cs.next + 1)
  }

  function VarName(x: nat, ls: Locals): string { if x < |ls.vars| then ls.vars[x].name else "" }

  function LowerAction(a: Action, ls: Locals, b: Builder): Builder {
    var c := ActionCode(a, ls, b.cfg.nextReg);
    match a
    case ReadValue(rd) => LowerRead(rd, ls, b)
    case Declare(ty, name) =>
      AddLine(b.(cfg := b.cfg.(slots := b.cfg.slots + [ty])), TyName(ty) + " " + name + ";")
    case Set(x, e) => Emit(Line(b, VarName(x, ls) + " = " + Show(e, ls.vals) + ";"), c.ops, c.next)
    case Store(e, p) => Emit(Line(b, "*" + Show(p, ls.vals) + " = " + Show(e, ls.vals)), c.ops, c.next)
    case MemCmp(p, q, n) =>
      Emit(Line(b, "memcmp_ret = memcmp(" + Show(p, ls.vals) + ", " + Show(q, ls.vals) + ", " + Show(n, ls.vals) +
          ");"),
           c.ops, c.next)
  }

  function ActionLocals(a: Action, ls: Locals, b: Builder): Locals {
    match a
    case ReadValue(rd) => ReadLocals(rd, ls, b)
    case Declare(ty, name) => ls.(vars := ls.vars + [Variable(|b.cfg.slots|, ty, name)])
    case MemCmp(_, _, _) => PushValue(ls, Value(ActionCode(a, ls, b.cfg.nextReg).res, "memcmp_ret"))
    case _ => ls
  }

  function LowerCall(fn: FnRef, args: seq<Expr>, ls: Locals, b: Builder): Builder {
    var c := EmittedArgs(args, ls.vals, b.cfg.nextReg);
    Emit(Line(b, fn.name + "_ret = " + fn.name + "(" + ShowArgs(args, ls.vals) + ");"),
         c.ops + [ICall(c.next, fn.idx, c.res)], c.next + 1)
  }

  function CallLocals(fn: FnRef, args: seq<Expr>, ls: Locals, b: Builder): Locals {
    PushValue(ls, Value(Reg(EmittedArgs(args, ls.vals, b.cfg.nextReg).next), fn.name + "_ret"))
  }

  // ----- exits -----

  function Exit(b: Builder, text: string, ops: seq<Op>, next: nat): Builder {
    var b1 := Emit(Line(b, text), ops, next);
    b1.(cfg := b1.cfg.(exited := true))
  }

  /** Outside a loop the source asserts; nothing is emitted then. */
  function LowerBreak(b: Builder): Builder {
    if b.cfg.loop.InLoop? then Exit(b, "break;", [IBr(b.cfg.loop.breakBlock)], b.cfg.nextReg) else b
  }

  function LowerContinue(b: Builder): Builder {
    if b.cfg.loop.InLoop? then Exit(b, "continue;", [IBr(b.cfg.loop.continueBlock)], b.cfg.nextReg) else b
  }

  function LowerReturn(e: Expr, ls: Locals, b: Builder): Builder {
    var c := Emitted(e, ls.vals, b.cfg.nextReg);
    Exit(b, "return " + Show(e, ls.vals) + ";", c.ops + [IRet(Some(c.res))], c.next)
  }

  function LowerReturnVoid(b: Builder): Builder { Exit(b, "return;", [IRet(None)], b.cfg.nextReg) }

  // ----- if_ -----

  function TrueOf(b: Builder): Label { Label(TrueBlock, b.cfg.nextLabel) }
  function FalseOf(b: Builder): Label { Label(FalseBlock, b.cfg.nextLabel + 1) }
  function MergeOf(b: Builder): Label { Label(MergeBlock, b.cfg.nextLabel + 2) }
  function MergeOnlyOf(b: Builder): Label { Label(MergeBlock, b.cfg.nextLabel + 1) }

  /** Make l the insertion block and open a listing and debug scope for its statements. */
  function OpenBlock(b: Builder, l: Label, parent: Scope): Builder {
    var b1 := Indent(b.(cfg := b.cfg.(cur := l)));
    b1.(scope := Lexical(parent, CurrentLine(b1)))
  }

  /** Close a branch: its last line, and the fall-through branch unless the body exited. */
  function CloseBlock(b: Builder, text: string, target: Label, parent: Scope): Builder {
    var b1 := AddLine(Outdent(b), text);
    var b2 := if b.cfg.exited then b1
              else Emit(SetLoc(b1, CurrentLine(b), parent), [IBr(target)], b.cfg.nextReg);
    b2.(cfg := b2.cfg.(exited := false))
  }

  /** push_back and SetInsertPoint */
  function Attach(b: Builder, l: Label): Builder { b.(cfg := PushBlock(b.cfg, l).(cur := l)) }

  function IfText(e: Expr, ls: Locals): string { "if (" + Show(e, ls.vals) + ") {" }

  /** The three blocks of a two-armed if_; only the first is in the list yet. */
  function IfBlocks(b: Builder): Builder {
    var g := PushBlock(Detached(b.cfg, TrueOf(b)), TrueOf(b));
    b.(cfg := Detached(Detached(g, FalseOf(b)), MergeOf(b)))
  }

  function IfHead(e: Expr, ls: Locals, b: Builder): Builder {
    var c := Emitted(e, ls.vals, b.cfg.nextReg);
    var b2 := Emit(IfBlocks(Line(b, IfText(e, ls))), c.ops + [ICondBr(c.res, TrueOf(b), FalseOf(b))], c.next);
    OpenBlock(b2, TrueOf(b), b.scope)
  }

  /** Between the branches; `b` is the state before the if_, `b2` the one after its first lambda. */
  function IfElse(b: Builder, b2: Builder): Builder {
    OpenBlock(Attach(CloseBlock(b2, "} else {", MergeOf(b), b.scope), FalseOf(b)), FalseOf(b), b.scope)
  }

  function IfEnd(b: Builder, b4: Builder): Builder {
    Attach(CloseBlock(b4, "}", MergeOf(b), b.scope).(scope := b.scope), MergeOf(b))
  }

  function IfThenBlocks(b: Builder): Builder {
    var g := PushBlock(Detached(b.cfg, TrueOf(b)), TrueOf(b));
    b.(cfg := Detached(g, MergeOnlyOf(b)))
  }

  function IfThenHead(e: Expr, ls: Locals, b: Builder): Builder {
    var c := Emitted(e, ls.vals, b.cfg.nextReg);
    var b2 := Emit(IfThenBlocks(Line(b, IfText(e, ls))), c.ops + [ICondBr(c.res, TrueOf(b), MergeOnlyOf(b))], c.next);
    OpenBlock(b2, TrueOf(b), b.scope)
  }

  function IfThenEnd(b: Builder, b2: Builder): Builder {
    Attach(CloseBlock(b2, "}", MergeOnlyOf(b), b.scope).(scope := b.scope), MergeOnlyOf(b))
  }

  // ----- while_ -----

  function ContinueOf(b: Builder): Label { Label(WhileContinue, b.cfg.nextLabel) }
  function IterationOf(b: Builder): Label { Label(WhileIteration, b.cfg.nextLabel + 1) }
  function BreakOf(b: Builder): Label { Label(WhileBreak, b.cfg.nextLabel + 2) }

  /** The condition is generated twice: first only to be printed, its reads landing before
      the loop; then again in the loop header, where it decides. */
  function WhileEntry(cnd: Cond, ls: Locals, b: Builder): Builder {
    var (b1, ls1) := LowerReads(cnd.first, ls, SetLoc(b, CurrentLine(b) + 1, b.scope));
    EnterLoop(b, AddLine(b1, "while (" + Show(cnd.test, ls1.vals) + ") {"))
  }

  /** Create the loop's blocks, branch to its header and continue there. */
  function EnterLoop(b: Builder, b2: Builder): Builder {
    var g := PushBlock(Detached(b2.cfg, ContinueOf(b)), ContinueOf(b));
    var g1 := Detached(Detached(g, IterationOf(b)), BreakOf(b)).(loop := InLoop(ContinueOf(b), BreakOf(b)));
    var b3 := Emit(b2.(cfg := g1), [IBr(ContinueOf(b))], g1.nextReg);
    b3.(cfg := b3.cfg.(cur := ContinueOf(b)))
  }

  function WhileTest(cnd: Cond, ls: Locals, b: Builder, b3: Builder): Builder {
    var (b4, ls4) := LowerReads(cnd.first, ls, b3);
    var c := Emitted(cnd.test, ls4.vals, b4.cfg.nextReg);
    var b5 := Emit(b4, c.ops + [ICondBr(c.res, IterationOf(b), BreakOf(b))], c.next);
    OpenBlock(b5.(cfg := PushBlock(b5.cfg, IterationOf(b))), IterationOf(b), b.scope)
  }

  function WhileEnd(b: Builder, b6: Builder): Builder {
    var b7 := Attach(CloseBlock(b6, "}", ContinueOf(b), b.scope).(scope := b.scope), BreakOf(b));
    b7.(cfg := b7.cfg.(loop := b.cfg.loop))
  }

  function WhileHead(cnd: Cond, ls: Locals, b: Builder): Builder { WhileTest(cnd, ls, b, WhileEntry(cnd, ls, b)) }

  // ----- a whole lambda -----

  /** The statements of a lambda, in order; each form has its own function below. */
  function Lower(c: Code, ls: Locals, b: Builder): Builder
    decreases c, 1
  {
    match c
    case Done => b
    case Break => LowerBreak(b)
    case Continue => LowerContinue(b)
    case Return(e) => LowerReturn(e, ls, b)
    case ReturnVoid => LowerReturnVoid(b)
    case Act(a, next) => LowerAct(a, next, ls, b)
    case Call(fn, args, next) => LowerCallThen(fn, args, next, ls, b)
    case If(e, t, f, next) => LowerIf(e, t, f, next, ls, b)
    case IfThen(e, t, next) => LowerIfThen(e, t, next, ls, b)
    case While(cnd, body, next) => LowerWhile(cnd, body, next, ls, b)
  }

  function LowerAct(a: Action, next: Code, ls: Locals, b: Builder): Builder
    decreases Act(a, next), 0
  {
    Lower(next, ActionLocals(a, ls, b), LowerAction(a, ls, b))
  }

  function LowerCallThen(fn: FnRef, args: seq<Expr>, next: Code, ls: Locals, b: Builder): Builder
    decreases Call(fn, args, next), 0
  {
    Lower(next, CallLocals(fn, args, ls, b), LowerCall(fn, args, ls, b))
  }

  function LowerIf(e: Expr, t: Code, f: Code, next: Code, ls: Locals, b: Builder): Builder
    decreases If(e, t, f, next), 0
  {
    var b2 := Lower(t, ls, IfHead(e, ls, b));
    var b4 := Lower(f, ls, IfElse(b, b2));
    Lower(next, ls, IfEnd(b, b4))
  }

  function LowerIfThen(e: Expr, t: Code, next: Code, ls: Locals, b: Builder): Builder
    decreases IfThen(e, t, next), 0
  {
    var b2 := Lower(t, ls, IfThenHead(e, ls, b));
    Lower(next, ls, IfThenEnd(b, b2))
  }

  function LowerWhile(cnd: Cond, body: Code, next: Code, ls: Locals, b: Builder): Builder
    decreases While(cnd, body, next), 0
  {
    var b6 := Lower(body, ls, WhileHead(cnd, ls, b));
    Lower(next, ls, WhileEnd(b, b6))
  }

  // ----- functions -----

  function ArgName(i: nat): string { "arg" + NatText(i) }

  function ParamText(params: seq<Ty>, i: nat): string
    decreases |params| - i
  {
    if i >= |params| then ""
    else TyName(params[i]) + " " + ArgName(i) + (if i + 1 == |params| then "" else ", ") + ParamText(params, i + 1)
  }

  function Params(n: nat): Locals { Locals(seq(n, i requires 0 <= i < n => Value(Reg(i), ArgName(i))), []) }

  /** The state in which a function's lambda starts. `current_loop_` and `exited_block_` are
      builder fields: create_function resets only the latter. */
  function BeginFunction(f: FnDef, b: Builder): Builder {
    var line := CurrentLine(b);
    var g := Cfg(map[ENTRY := []], [ENTRY], ENTRY, 1, |f.params|, [], false, b.cfg.loop, NoLoc);
    var b1 := Builder(g, b.src, FnScope(b.scope, f.name, line));
    Indent(AddLine(b1, TyName(f.ret) + " " + f.name + "(" + ParamText(f.params, 0) + ") {"))
  }

  function EndFunction(parent: Scope, b: Builder): Builder { AddLine(Outdent(b), "}").(scope := parent) }

  function AllocaPrefix(slots: seq<Ty>): (p: seq<Ins>)
    ensures |p| == |slots|
  {
    seq(|slots|, i requires 0 <= i < |slots| => Ins(IAlloca(|slots| - 1 - i, slots[|slots| - 1 - i]), NoLoc))
  }

  /** The finished function; each alloca was inserted at the front of the entry block. */
  function Finish(g: Cfg): Fn {
    var entry := if ENTRY in g.code then g.code[ENTRY] else [];
    Fn(g.code[ENTRY := AllocaPrefix(g.slots) + entry], g.order, g.slots)
  }

  const FRESH := Builder(Cfg(map[ENTRY := []], [ENTRY], ENTRY, 1, 0, [], false, NoLoop, NoLoc),
      Listing([], 0, 0), FileScope)

  /** The builder as function k begins, and once its lambda has returned. */
  function Before(fns: seq<FnDef>, k: nat): Builder
    requires k <= |fns|
    decreases k, 0
  {
    if k == 0 then FRESH else EndFunction(Before(fns, k - 1).scope, BodyOf(fns, k - 1))
  }

  function BodyOf(fns: seq<FnDef>, k: nat): Builder
    requires k < |fns|
    decreases k, 1
  {
    Lower(fns[k].body, Params(|fns[k].params|), BeginFunction(fns[k], Before(fns, k)))
  }

  function CompileFn(fns: seq<FnDef>, k: nat): Fn
    requires k < |fns|
  {
    Finish(BodyOf(fns, k).cfg)
  }

  function Compile(fns: seq<FnDef>): (p: seq<Fn>)
    ensures |p| == |fns|
  {
    seq(|fns|, k requires 0 <= k < |fns| => CompileFn(fns, k))
  }
}
