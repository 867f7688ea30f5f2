/** The builder itself: mutable state updated step by step, each operation proved to do exactly what
    its specification function does. */
module ModuleBuilders {
  import opened Types
  import opened Source
  import opened Ir
  import opened Text
  import opened Lowering
  import opened Shapes
  import opened Growth

  class SourceCodeGenerator {
    var sourceCode: string
    var lineNo: nat
    var indent: nat
    /** The lines added so far. */
    ghost var lines: seq<string>

    ghost predicate Valid()
      reads this
    {
      sourceCode == Join(lines) && lineNo == |lines| + 1
    }

    constructor ()
      ensures Valid() && lines == [] && indent == 0
    {
      sourceCode, lineNo, indent, lines := "", 1, 0, [];
    }

    /** Append a line at the current indentation; its number is returned. */
    method AddLine(line: string) returns (n: nat)
      requires Valid()
      modifies this
      ensures Valid() && lines == old(lines) + [Spaces(old(indent)) + line] && indent == old(indent)
      ensures n == |old(lines)| + 1
    {
      sourceCode := sourceCode + (Spaces(indent) + line) + "\n";
      n := lineNo;
      lineNo := lineNo + 1;
      lines := lines + [Spaces(indent) + line];
      assert lines[..|lines| - 1] == old(lines);
    }

    method EnterScope()
      requires Valid()
      modifies `indent
      ensures Valid() && indent == old(indent) + 4
    {
      indent := indent + 4;
    }

    /** The indentation is unsigned: it is only ever left after being entered. */
    method LeaveScope()
      requires Valid()
      modifies `indent
      ensures Valid() && indent == if old(indent) >= 4 then old(indent) - 4 else 0
    {
      indent := if indent >= 4 then indent - 4 else 0;
    }

    method CurrentLine() returns (n: nat)
      requires Valid()
      ensures n == |lines| + 1
    {
      n := lineNo;
    }

    method Get() returns (text: string)
      requires Valid()
      ensures text == Join(lines)
    {
      text := sourceCode;
    }
  }

  /** The entry block's code as generated, without the allocas in front of it. */
  function Stripped(blocks: Blocks, slots: seq<Ty>): Blocks {
    if ENTRY in blocks && |slots| <= |blocks[ENTRY]| then blocks[ENTRY := blocks[ENTRY][|slots|..]] else blocks
  }

  lemma PrefixGrows(slots: seq<Ty>, ty: Ty)
    ensures AllocaPrefix(slots + [ty]) == [Ins(IAlloca(|slots|, ty), NoLoc)] + AllocaPrefix(slots)
  {}

  lemma EmitTwice(b: Builder, xs: seq<Op>, m: nat, ys: seq<Op>, n: nat)
    requires b.cfg.cur in b.cfg.code
    ensures Emit(Emit(b, xs, m), ys, n) == Emit(b, xs + ys, n)
  {
    var g := b.cfg;
    assert WithLoc(xs + ys, g.loc) == WithLoc(xs, g.loc) + WithLoc(ys, g.loc);
    assert g.code[g.cur] + WithLoc(xs, g.loc) + WithLoc(ys, g.loc) == g.code[g.cur] + WithLoc(xs + ys, g.loc);
  }

  lemma EmitNothing(b: Builder)
    requires b.cfg.cur in b.cfg.code
    ensures Emit(b, [], b.cfg.nextReg) == b
  {
    assert b.cfg.code[b.cfg.cur] + WithLoc([], b.cfg.loc) == b.cfg.code[b.cfg.cur];
  }

  class ModuleBuilder {
    // module_
    var functions: seq<Fn>
    // function_: its blocks by identity, and its block list
    var blocks: Blocks
    var blockList: seq<Label>
    var slots: seq<Ty>
    // ir_builder_
    var insertPoint: Label
    var debugLoc: DebugLoc
    var nextReg: nat
    var nextLabel: nat
    // source_code_ and id_counter
    const sourceCode: SourceCodeGenerator
    var idCounter: nat
    // current_loop_, exited_block_, dbg_scope_
    var currentLoop: Loop
    var exitedBlock: bool
    var dbgScope: Scope

    ghost predicate Valid()
      reads this, sourceCode
    {
      sourceCode.Valid() && insertPoint in blocks && ENTRY in blocks &&
      AllocaPrefix(slots) <= blocks[ENTRY] && forall l :: l in blocks ==> l.id < nextLabel
    }

    /** The specification's view of this state. */
    ghost function Model(): Builder
      reads this, sourceCode
    {
      Builder(Cfg(Stripped(blocks, slots), blockList, insertPoint, nextLabel, nextReg, slots,
          exitedBlock, currentLoop, debugLoc),
              Listing(sourceCode.lines, sourceCode.indent, idCounter), dbgScope)
    }

    constructor ()
      ensures Valid() && fresh(sourceCode) && Model() == FRESH && functions == []
    {
      functions := [];
      blocks, blockList, slots := map[ENTRY := []], [ENTRY], [];
      insertPoint, debugLoc, nextReg, nextLabel := ENTRY, NoLoc, 0, 1;
      sourceCode := new SourceCodeGenerator();
      idCounter, currentLoop, exitedBlock, dbgScope := 0, NoLoop, false, FileScope;
      new;
      assert AllocaPrefix([]) == [];
      assert Stripped(blocks, slots) == map[ENTRY := []];
    }

    // ----- the parts of LLVM's builder that are used -----

    /** Append an instruction at the insertion point, under the current debug location. */
    method Insert(op: Op)
      requires Valid()
      modifies `blocks
      ensures Valid() && Model() == Emit(old(Model()), [op], old(nextReg))
    {
      blocks := blocks[insertPoint := blocks[insertPoint] + [Ins(op, debugLoc)]];
      Inserted(old(blocks), slots, insertPoint, [Ins(op, debugLoc)]);
      assert WithLoc([op], debugLoc) == [Ins(op, debugLoc)];
    }

    static lemma Inserted(blocks: Blocks, slots: seq<Ty>, at: Label, ins: seq<Ins>)
      requires ENTRY in blocks && at in blocks && AllocaPrefix(slots) <= blocks[ENTRY]
      ensures var blocks' := blocks[at := blocks[at] + ins];
              AllocaPrefix(slots) <= blocks'[ENTRY] &&
              Stripped(blocks', slots) == Stripped(blocks, slots)[at := Stripped(blocks, slots)[at] + ins]
    {
      var blocks' := blocks[at := blocks[at] + ins];
      if at == ENTRY {
        assert (blocks[ENTRY] + ins)[|slots|..] == blocks[ENTRY][|slots|..] + ins;
      }
    }

    /** An instruction with a result, which gets the next register. */
    method InsertValue(op: Op) returns (r: Operand)
      requires Valid()
      modifies `blocks, `nextReg
      ensures Valid() && Model() == Emit(old(Model()), [op], old(nextReg) + 1) && r == Reg(old(nextReg))
    {
      Insert(op);
      r := Reg(nextReg);
      nextReg := nextReg + 1;
    }

    method SetDebugLocation(line: nat, scope: Scope)
      requires Valid()
      modifies `debugLoc
      ensures Valid() && Model() == SetLoc(old(Model()), line, scope)
    {
      debugLoc := Loc(line, scope);
    }

    /** Create a block outside the function's list. */
    method CreateBlock(kind: Kind) returns (l: Label)
      requires Valid()
      modifies `blocks, `nextLabel
      ensures Valid() && l == Label(kind, old(nextLabel)) && nextLabel == old(nextLabel) + 1 && l in blocks
      ensures Model() == old(Model()).(cfg := Detached(old(Model()).cfg, l))
    {
      l := Label(kind, nextLabel);
      blocks := blocks[l := []];
      nextLabel := nextLabel + 1;
      assert l != ENTRY;
      assert Stripped(blocks, slots) == Stripped(old(blocks), slots)[l := []];
    }

    method PushBack(l: Label)
      requires Valid()
      modifies `blockList
      ensures Valid() && Model() == old(Model()).(cfg := PushBlock(old(Model()).cfg, l))
    {
      blockList := blockList + [l];
    }

    method SetInsertPoint(l: Label)
      requires Valid() && l in blocks
      modifies `insertPoint
      ensures Valid() && Model() == old(Model()).(cfg := old(Model()).cfg.(cur := l))
    {
      insertPoint := l;
    }

    /** add_line and SetCurrentDebugLocation, as nearly every statement starts. */
    method AddSourceLine(text: string)
      requires Valid()
      modifies `debugLoc, sourceCode
      ensures Valid() && Model() == Line(old(Model()), text)
    {
      var lineNo := sourceCode.AddLine(text);
      SetDebugLocation(lineNo, dbgScope);
    }

    // ----- eval() of the expression templates -----

    lemma CurrentBlock()
      requires Valid()
      ensures Model().cfg.cur in Model().cfg.code && Model().cfg.nextReg == nextReg
    {}

    /** Emits the three-address code of a tree and returns its result. */
    method Eval(e: Expr, vals: seq<Value>) returns (r: Operand)
      requires Valid()
      modifies `blocks, `nextReg
      ensures var c := Emitted(e, vals, old(nextReg));
              Valid() && Model() == Emit(old(Model()), c.ops, c.next) && r == c.res
      decreases e, 2
    {
      hide Emit, Model;
      CurrentBlock();
      ghost var b := Model();
      match e
      case Val(i, _) =>
        EmitNothing(b);
        r := if i < |vals| then vals[i].op else Const(0);
      case Lit(ty, n) =>
        EmitNothing(b);
        r := Const(PatOf(ty, n));
      case Arith(op, lhs, rhs) =>
        var x, y := EvalTwo(lhs, rhs, vals, e);
        CurrentBlock();
        ghost var r1 := nextReg;
        r := InsertValue(IBin(nextReg, SelectArith(op, TypeOf(lhs)), Width(TypeOf(lhs)), x, y));
        ThenOne(b, lhs, rhs, vals, IBin(r1, SelectArith(op, TypeOf(lhs)), Width(TypeOf(lhs)), x, y));
      case Rel(op, lhs, rhs) =>
        var x, y := EvalTwo(lhs, rhs, vals, e);
        CurrentBlock();
        ghost var r1 := nextReg;
        r := InsertValue(ICmp(nextReg, SelectRel(op, TypeOf(lhs)), Width(TypeOf(lhs)), x, y));
        ThenOne(b, lhs, rhs, vals, ICmp(r1, SelectRel(op, TypeOf(lhs)), Width(TypeOf(lhs)), x, y));
      case PtrArith(minus, lhs, rhs) => r := EvalPointer(minus, lhs, rhs, vals, e);
      case Cast(to, e1) => r := EvalCast(to, e1, vals, e);
      case BitCast(to, e1) => r := EvalBitCast(to, e1, vals, e);
    }

    static lemma ThenOne(b: Builder, lhs: Expr, rhs: Expr, vals: seq<Value>, op: Op)
      requires b.cfg.cur in b.cfg.code
      ensures var x := Emitted(lhs, vals, b.cfg.nextReg);
              var y := Emitted(rhs, vals, x.next);
              Emit(Emit(b, x.ops + y.ops, y.next), [op], y.next + 1) == Emit(b, x.ops + y.ops + [op], y.next + 1)
    {
      var x := Emitted(lhs, vals, b.cfg.nextReg);
      var y := Emitted(rhs, vals, x.next);
      EmitTwice(b, x.ops + y.ops, y.next, [op], y.next + 1);
    }

    /** Two operands, left then right. */
    method EvalTwo(lhs: Expr, rhs: Expr, vals: seq<Value>, ghost whole: Expr) returns (x: Operand, y: Operand)
      requires Valid() && lhs < whole && rhs < whole
      modifies `blocks, `nextReg
      ensures var a := Emitted(lhs, vals, old(nextReg));
              var c := Emitted(rhs, vals, a.next);
              Valid() && Model() == Emit(old(Model()), a.ops + c.ops, c.next) && x == a.res && y == c.res &&
              nextReg == c.next
      decreases whole, 0
    {
      hide Emit, Model, Emitted;
      CurrentBlock();
      ghost var b, a := Model(), Emitted(lhs, vals, nextReg);
      x := Eval(lhs, vals);
      CurrentBlock();
      NextAfter(b, a.ops, a.next);
      ghost var c := Emitted(rhs, vals, a.next);
      y := Eval(rhs, vals);
      CurrentBlock();
      EmitTwice(b, a.ops, a.next, c.ops, c.next);
      NextAfter(b, a.ops + c.ops, c.next);
    }

    static lemma NextAfter(b: Builder, ops: seq<Op>, n: nat)
      ensures Emit(b, ops, n).cfg.nextReg == n
    {}

    /** A pointer offset, widened to 64 bits by its own signedness. */
    method EvalOffset(rhs: Expr, vals: seq<Value>, ghost whole: Expr) returns (i: Operand)
      requires Valid() && rhs < whole
      modifies `blocks, `nextReg
      ensures var o := Widen(TypeOf(rhs), Emitted(rhs, vals, old(nextReg)));
              Valid() && Model() == Emit(old(Model()), o.ops, o.next) && i == o.res && nextReg == o.next
      decreases whole, 0
    {
      hide Emit, Model, Emitted;
      CurrentBlock();
      ghost var b, c, t := Model(), Emitted(rhs, vals, nextReg), TypeOf(rhs);
      i := Eval(rhs, vals);
      CurrentBlock();
      NextAfter(b, c.ops, c.next);
      if Size(TypeOf(rhs)) < 8 {
        ghost var op := if IsSigned(t) then ISExt(c.next, Width(t), 64, c.res) else IZExt(c.next, Width(t), 64, c.res);
        if !IsSigned(TypeOf(rhs)) {
          i := InsertValue(IZExt(nextReg, Width(TypeOf(rhs)), 64, i));
        } else {
          i := InsertValue(ISExt(nextReg, Width(TypeOf(rhs)), 64, i));
        }
        EmitTwice(b, c.ops, c.next, [op], c.next + 1);
        CurrentBlock();
        NextAfter(b, c.ops + [op], c.next + 1);
      }
    }

    /** Pointer arithmetic: the offset first, then the base. */
    method EvalPointer(minus: bool, lhs: Expr, rhs: Expr, vals: seq<Value>, ghost whole: Expr) returns (r: Operand)
      requires Valid() && whole == PtrArith(minus, lhs, rhs)
      modifies `blocks, `nextReg
      ensures var c := Emitted(whole, vals, old(nextReg));
              Valid() && Model() == Emit(old(Model()), c.ops, c.next) && r == c.res
      decreases whole, 1
    {
      hide Emit, Model;
      CurrentBlock();
      ghost var b, o := Model(), Widen(TypeOf(rhs), Emitted(rhs, vals, nextReg));
      ghost var a := Emitted(lhs, vals, o.next);
      var i := EvalOffset(rhs, vals, whole);
      CurrentBlock();
      var p := Eval(lhs, vals);
      CurrentBlock();
      EmitTwice(b, o.ops, o.next, a.ops, a.next);
      NextAfter(b, o.ops + a.ops, a.next);
      r := Address(minus, Size(Pointee(TypeOf(lhs))), p, i, b, o, a);
    }

    /** The address computation itself. */
    method Address(minus: bool, scale: nat, p: Operand, i: Operand, ghost b: Builder, ghost o: ExprCode,
        ghost a: ExprCode) returns (r: Operand)
      requires Valid() && Model() == Emit(b, o.ops + a.ops, a.next) && nextReg == a.next && p == a.res && i == o.res
      requires b.cfg.cur in b.cfg.code
      modifies `blocks, `nextReg
      ensures var c := Addressed(minus, scale, o, a);
              Valid() && Model() == Emit(b, c.ops, c.next) && r == c.res
    {
      hide Emit, Model;
      if minus {
        var neg := InsertValue(IBin(nextReg, Sub, 64, Const(0), i));
        ghost var sub, gep := IBin(a.next, Sub, 64, Const(0), i), IGep(a.next + 1, scale, p, Reg(a.next));
        EmitTwice(b, o.ops + a.ops, a.next, [sub], a.next + 1);
        NextAfter(b, o.ops + a.ops + [sub], a.next + 1);
        CurrentBlock();
        r := InsertValue(IGep(nextReg, scale, p, neg));
        EmitTwice(b, o.ops + a.ops + [sub], a.next + 1, [gep], a.next + 2);
        assert o.ops + a.ops + [sub] + [gep] == o.ops + a.ops + [sub, gep];
      } else {
        r := InsertValue(IGep(nextReg, scale, p, i));
        EmitTwice(b, o.ops + a.ops, a.next, [IGep(a.next, scale, p, i)], a.next + 1);
      }
    }

    /** CreateSExtOrTrunc or CreateZExtOrTrunc, by the signedness of the operand. */
    method EvalCast(to: Ty, e1: Expr, vals: seq<Value>, ghost whole: Expr) returns (r: Operand)
      requires Valid() && whole == Cast(to, e1)
      modifies `blocks, `nextReg
      ensures var c := Emitted(whole, vals, old(nextReg));
              Valid() && Model() == Emit(old(Model()), c.ops, c.next) && r == c.res
      decreases whole, 0
    {
      hide Emit, Model;
      CurrentBlock();
      ghost var b, c := Model(), Emitted(e1, vals, nextReg);
      r := Eval(e1, vals);
      CurrentBlock();
      NextAfter(b, c.ops, c.next);
      var from := TypeOf(e1);
      if Width(from) != Width(to) {
        ghost var op := if Width(from) > Width(to) then ITrunc(c.next, Width(from), Width(to), c.res)
                        else if IsSigned(from) then ISExt(c.next, Width(from), Width(to), c.res)
                        else IZExt(c.next, Width(from), Width(to), c.res);
        if Width(from) > Width(to) {
          r := InsertValue(ITrunc(nextReg, Width(from), Width(to), r));
        } else if IsSigned(from) {
          r := InsertValue(ISExt(nextReg, Width(from), Width(to), r));
        } else {
          r := InsertValue(IZExt(nextReg, Width(from), Width(to), r));
        }
        EmitTwice(b, c.ops, c.next, [op], c.next + 1);
      }
    }

    /** CreateBitCast: nothing when the LLVM types are the same. */
    method EvalBitCast(to: Ty, e1: Expr, vals: seq<Value>, ghost whole: Expr) returns (r: Operand)
      requires Valid() && whole == BitCast(to, e1)
      modifies `blocks, `nextReg
      ensures var c := Emitted(whole, vals, old(nextReg));
              Valid() && Model() == Emit(old(Model()), c.ops, c.next) && r == c.res
      decreases whole, 0
    {
      hide Emit, Model;
      CurrentBlock();
      ghost var b, c := Model(), Emitted(e1, vals, nextReg);
      r := Eval(e1, vals);
      CurrentBlock();
      NextAfter(b, c.ops, c.next);
      if !SameLlvm(TypeOf(e1), to) {
        EmitTwice(b, c.ops, c.next, [IBitCast(c.next, c.res)], c.next + 1);
        r := InsertValue(IBitCast(nextReg, r));
      }
    }

    /** Evaluate an expression and tell the register count as well. */
    method Evaluate(e: Expr, vals: seq<Value>) returns (r: Operand)
      requires Valid()
      modifies `blocks, `nextReg
      ensures var c := Emitted(e, vals, old(nextReg));
              Valid() && Model() == Emit(old(Model()), c.ops, c.next) && r == c.res && nextReg == c.next
    {
      ghost var b, c := Model(), Emitted(e, vals, nextReg);
      r := Eval(e, vals);
      NextAfter(b, c.ops, c.next);
    }

    /** The arguments of a call, left to right. */
    method EvalArguments(args: seq<Expr>, vals: seq<Value>) returns (rs: seq<Operand>)
      requires Valid()
      modifies `blocks, `nextReg
      ensures var c := EmittedArgs(args, vals, old(nextReg));
              Valid() && Model() == Emit(old(Model()), c.ops, c.next) && rs == c.res && nextReg == c.next
      decreases |args|
    {
      hide Emit, Model, Emitted;
      CurrentBlock();
      ghost var b := Model();
      if args == [] {
        EmitNothing(b);
        rs := [];
      } else {
        ghost var a := Emitted(args[0], vals, nextReg);
        var r := Eval(args[0], vals);
        CurrentBlock();
        NextAfter(b, a.ops, a.next);
        ghost var c := EmittedArgs(args[1..], vals, a.next);
        rs := EvalArguments(args[1..], vals);
        EmitTwice(b, a.ops, a.next, c.ops, c.next);
        rs := [r] + rs;
      }
    }

    // ----- statements that append -----

    /** variable's constructor: the alloca goes to the front of the entry block. */
    method Variable(ty: Ty, name: string) returns (v: Text.Variable)
      requires Valid()
      modifies `blocks, `slots, sourceCode
      ensures Valid() && Model() == LowerAction(Declare(ty, name), Locals([], []), old(Model()))
      ensures v == Text.Variable(|old(slots)|, ty, name)
    {
      v := Text.Variable(|slots|, ty, name);
      PrefixGrows(slots, ty);
      blocks := blocks[ENTRY := [Ins(IAlloca(|slots|, ty), NoLoc)] + blocks[ENTRY]];
      slots := slots + [ty];
      assert blocks[ENTRY][|slots|..] == old(blocks)[ENTRY][|old(slots)|..];
      assert Stripped(blocks, slots) == Stripped(old(blocks), old(slots));
      var lineNo := sourceCode.AddLine(TyName(ty) + " " + name + ";");
    }

    /** variable::get: an eager load, under whatever line is current. */
    method Get(x: nat, ls: Locals) returns (v: Value)
      requires Valid()
      modifies `blocks, `nextReg
      ensures Valid() && Model() == LowerRead(RGet(x), ls, old(Model())) &&
              PushValue(ls, v) == ReadLocals(RGet(x), ls, old(Model()))
    {
      hide Emit, Model;
      CurrentBlock();
      if x < |ls.vars| {
        var r := InsertValue(ILoad(nextReg, ls.vars[x].ty, SlotPtr(ls.vars[x].slot)));
        v := Value(r, ls.vars[x].name);
      } else {
        // not a program: there is no such variable
        EmitNothing(Model());
        v := Value(Const(0), "");
      }
    }

    /** variable::set */
    method Set(x: nat, e: Expr, ls: Locals)
      requires Valid()
      modifies `blocks, `nextReg, `debugLoc, sourceCode
      ensures Valid() && Model() == LowerAction(Source.Set(x, e), ls, old(Model()))
    {
      hide Emit, Line, Emitted, Show, Model;
      CurrentBlock();
      AddSourceLine(VarName(x, ls) + " = " + Show(e, ls.vals) + ";");
      CurrentBlock();
      LineKeeps(old(Model()), VarName(x, ls) + " = " + Show(e, ls.vals) + ";");
      ghost var b, c := Model(), Emitted(e, ls.vals, nextReg);
      var v := Evaluate(e, ls.vals);
      var store := IStore(TypeOf(e), v, SlotPtr(if x < |ls.vars| then ls.vars[x].slot else 0));
      Insert(store);
      EmitTwice(b, c.ops, c.next, [store], c.next);
    }

    static lemma LineKeeps(b: Builder, text: string)
      ensures Line(b, text).cfg.nextReg == b.cfg.nextReg
    {}

    method Load(p: Expr, ls: Locals) returns (v: Value)
      requires Valid()
      modifies `blocks, `nextReg, `debugLoc, `idCounter, sourceCode
      ensures Valid() && Model() == LowerRead(RLoad(p), ls, old(Model())) &&
              PushValue(ls, v) == ReadLocals(RLoad(p), ls, old(Model()))
    {
      hide Emit, Line, Emitted, Show, NatText;
      var id := "val" + NatText(idCounter);
      idCounter := idCounter + 1;
      LineKeeps(Model(), id + " = *" + Show(p, ls.vals));
      AddSourceLine(id + " = *" + Show(p, ls.vals));
      CurrentBlock();
      ghost var b, c := Model(), Emitted(p, ls.vals, nextReg);
      var a := Evaluate(p, ls.vals);
      var r := InsertValue(ILoad(nextReg, Pointee(TypeOf(p)), a));
      EmitTwice(b, c.ops, c.next, [ILoad(c.next, Pointee(TypeOf(p)), a)], c.next + 1);
      v := Value(r, id);
    }

    method Store(e: Expr, p: Expr, ls: Locals)
      requires Valid()
      modifies `blocks, `nextReg, `debugLoc, sourceCode
      ensures Valid() && Model() == LowerAction(Source.Store(e, p), ls, old(Model()))
    {
      hide Emit, Line, Emitted, Show, Model;
      CurrentBlock();
      LineKeeps(Model(), "*" + Show(p, ls.vals) + " = " + Show(e, ls.vals));
      AddSourceLine("*" + Show(p, ls.vals) + " = " + Show(e, ls.vals));
      CurrentBlock();
      ghost var b, c := Model(), Emitted(e, ls.vals, nextReg);
      var v := Evaluate(e, ls.vals);
      CurrentBlock();
      ghost var d := Emitted(p, ls.vals, nextReg);
      var a := Evaluate(p, ls.vals);
      EmitTwice(b, c.ops, c.next, d.ops, d.next);
      Insert(IStore(TypeOf(e), v, a));
      EmitTwice(b, c.ops + d.ops, d.next, [IStore(TypeOf(e), v, a)], d.next);
    }

    method Call(fn: FnRef, args: seq<Expr>, ls: Locals) returns (v: Value)
      requires Valid()
      modifies `blocks, `nextReg, `debugLoc, sourceCode
      ensures Valid() && Model() == LowerCall(fn, args, ls, old(Model())) &&
              PushValue(ls, v) == CallLocals(fn, args, ls, old(Model()))
    {
      hide Emit, Line, EmittedArgs, ShowArgs, Model;
      CurrentBlock();
      LineKeeps(Model(), fn.name + "_ret = " + fn.name + "(" + ShowArgs(args, ls.vals) + ");");
      AddSourceLine(fn.name + "_ret = " + fn.name + "(" + ShowArgs(args, ls.vals) + ");");
      CurrentBlock();
      ghost var b, c := Model(), EmittedArgs(args, ls.vals, nextReg);
      var values := EvalArguments(args, ls.vals);
      var r := InsertValue(ICall(nextReg, fn.idx, values));
      EmitTwice(b, c.ops, c.next, [ICall(c.next, fn.idx, values)], c.next + 1);
      v := Value(r, fn.name + "_ret");
    }

    /** builtin::memcmp */
    method MemCmp(p: Expr, q: Expr, n: Expr, ls: Locals) returns (v: Value)
      requires Valid()
      modifies `blocks, `nextReg, `debugLoc, sourceCode
      ensures Valid() && Model() == LowerAction(Source.MemCmp(p, q, n), ls, old(Model()))
      ensures PushValue(ls, v) == ActionLocals(Source.MemCmp(p, q, n), ls, old(Model()))
    {
      hide Emit, Line, EmittedArgs, Show, Model;
      var text := "memcmp_ret = memcmp(" + Show(p, ls.vals) + ", " + Show(q, ls.vals) + ", " + Show(n, ls.vals) + ");";
      CurrentBlock();
      LineKeeps(Model(), text);
      AddSourceLine(text);
      CurrentBlock();
      ghost var b, c := Model(), EmittedArgs([p, q, n], ls.vals, nextReg);
      var rs := EvalArguments([p, q, n], ls.vals);
      var r := InsertValue(IMemCmp(nextReg, rs[0], rs[1], rs[2]));
      EmitTwice(b, c.ops, c.next, [IMemCmp(c.next, rs[0], rs[1], rs[2])], c.next + 1);
      v := Value(r, "memcmp_ret");
    }

    // ----- exits -----

    /** break_ and continue_ assert that there is a loop. */
    method Break()
      requires Valid() && currentLoop.InLoop?
      modifies `exitedBlock, `blocks, `debugLoc, sourceCode
      ensures Valid() && Model() == LowerBreak(old(Model()))
    {
      exitedBlock := true;
      AddSourceLine("break;");
      Insert(IBr(currentLoop.breakBlock));
    }

    method Continue()
      requires Valid() && currentLoop.InLoop?
      modifies `exitedBlock, `blocks, `debugLoc, sourceCode
      ensures Valid() && Model() == LowerContinue(old(Model()))
    {
      exitedBlock := true;
      AddSourceLine("continue;");
      Insert(IBr(currentLoop.continueBlock));
    }

    method ReturnVoid()
      requires Valid()
      modifies `exitedBlock, `blocks, `debugLoc, sourceCode
      ensures Valid() && Model() == LowerReturnVoid(old(Model()))
    {
      AddSourceLine("return;");
      exitedBlock := true;
      Insert(IRet(None));
    }

    method Return(e: Expr, ls: Locals)
      requires Valid()
      modifies `exitedBlock, `blocks, `nextReg, `debugLoc, sourceCode
      ensures Valid() && Model() == LowerReturn(e, ls, old(Model()))
    {
      hide Emitted, Show;
      ghost var b0 := Model();
      exitedBlock := true;
      AddSourceLine("return " + Show(e, ls.vals) + ";");
      CurrentBlock();
      ghost var b, c := Model(), Emitted(e, ls.vals, nextReg);
      var v := Evaluate(e, ls.vals);
      Insert(IRet(Some(v)));
      EmitTwice(b, c.ops, c.next, [IRet(Some(v))], c.next);
      ExitedEarly(b0, "return " + Show(e, ls.vals) + ";", c.ops + [IRet(Some(v))], c.next);
    }

    /** Setting the flag before or after emitting makes no difference. */
    static lemma ExitedEarly(b: Builder, text: string, ops: seq<Op>, n: nat)
      ensures Emit(Line(b.(cfg := b.cfg.(exited := true)), text), ops, n) == Exit(b, text, ops, n)
    {}

    // ----- blocks of branching statements -----

    /** Move to block l and open a scope for the statements in it. */
    method OpenScope(l: Label, parent: Scope)
      requires Valid() && l in blocks
      modifies `insertPoint, `dbgScope, sourceCode
      ensures Valid() && Model() == OpenBlock(old(Model()), l, parent)
    {
      SetInsertPoint(l);
      sourceCode.EnterScope();
      var line := sourceCode.CurrentLine();
      dbgScope := Lexical(parent, line);
    }

    /** Close a scope: its last line and, unless its statements exited, the branch onward. */
    method CloseScope(text: string, target: Label, parent: Scope)
      requires Valid()
      modifies `exitedBlock, `blocks, `debugLoc, sourceCode
      ensures Valid() && Model() == CloseBlock(old(Model()), text, target, parent)
    {
      sourceCode.LeaveScope();
      var lineNo := sourceCode.AddLine(text);
      if !exitedBlock {
        SetDebugLocation(lineNo, parent);
        Insert(IBr(target));
      }
      exitedBlock := false;
    }

    /** push_back and SetInsertPoint */
    method EnterBlock(l: Label)
      requires Valid() && l in blocks
      modifies `blockList, `insertPoint
      ensures Valid() && Model() == Attach(old(Model()), l)
    {
      PushBack(l);
      SetInsertPoint(l);
    }

    lemma ModelSane()
      requires Valid()
      ensures Sane(Model().cfg) && (forall l :: l in blocks <==> l in Model().cfg.code)
      ensures Model().cfg.nextReg == nextReg && Model().cfg.nextLabel == nextLabel && Model().scope == dbgScope
      ensures Model().cfg.exited == exitedBlock && Model().cfg.loop == currentLoop && Model().cfg.loc == debugLoc
    {}

    static lemma EmitKeeps(b: Builder, ops: seq<Op>, n: nat, l: Label)
      requires l in b.cfg.code
      ensures l in Emit(b, ops, n).cfg.code
    {}

    /** The test that opens an if_: its value decides between two blocks. */
    method Branch(e: Expr, ls: Locals, yes: Label, no: Label)
      requires Valid() && yes in blocks
      modifies `blocks, `nextReg
      ensures var b := old(Model());
              var c := Emitted(e, ls.vals, b.cfg.nextReg);
              Valid() && Model() == Emit(b, c.ops + [ICondBr(c.res, yes, no)], c.next) && yes in blocks
    {
      hide Emitted, Emit, Model;
      ModelSane();
      ghost var b, c := Model(), Emitted(e, ls.vals, nextReg);
      var v := Evaluate(e, ls.vals);
      Insert(ICondBr(v, yes, no));
      EmitTwice(b, c.ops, c.next, [ICondBr(v, yes, no)], c.next);
      EmitKeeps(b, c.ops + [ICondBr(v, yes, no)], c.next, yes);
      ModelSane();
    }

    /** The blocks of a two-armed if_. */
    method CreateIfBlocks() returns (trueBlock: Label, falseBlock: Label, mergeBlock: Label)
      requires Valid()
      modifies `blocks, `blockList, `nextLabel
      ensures var b := old(Model());
              Valid() && Model() == IfBlocks(b) && trueBlock == TrueOf(b) && falseBlock == FalseOf(b) &&
              mergeBlock == MergeOf(b) &&
              trueBlock in blocks
    {
      hide Model, Sane;
      ModelSane();
      ghost var b := Model();
      trueBlock := CreateBlock(TrueBlock);
      PushBack(trueBlock);
      assert Model() == b.(cfg := PushBlock(Detached(b.cfg, TrueOf(b)), TrueOf(b)));
      falseBlock := CreateBlock(FalseBlock);
      mergeBlock := CreateBlock(MergeBlock);
      ModelSane();
      assert trueBlock in Model().cfg.code;
    }

    /** The start of a two-armed if_, up to its first lambda. */
    method IfBegin(e: Expr, ls: Locals) returns (falseBlock: Label, mergeBlock: Label)
      requires Valid()
      modifies `blocks, `blockList, `insertPoint, `debugLoc, `nextReg, `nextLabel, `dbgScope, sourceCode
      ensures Valid() && Model() == IfHead(e, ls, old(Model())) && falseBlock == FalseOf(old(Model())) &&
              mergeBlock == MergeOf(old(Model()))
    {
      hide Emitted, Show, Emit, OpenBlock, Model, IfBlocks;
      ModelSane();
      ghost var b := Model();
      AddSourceLine(IfText(e, ls));
      var trueBlock;
      trueBlock, falseBlock, mergeBlock := CreateIfBlocks();
      BlocksKeep(Line(b, IfText(e, ls)));
      Branch(e, ls, trueBlock, falseBlock);
      OpenScope(trueBlock, dbgScope);
    }

    static lemma BlocksKeep(b: Builder)
      ensures IfBlocks(b).cfg.nextReg == b.cfg.nextReg && IfThenBlocks(b).cfg.nextReg == b.cfg.nextReg
    {}

    // ----- if_ -----

    /** if_ with two lambdas. */
    method If(e: Expr, t: Code, f: Code, ls: Locals, ghost whole: Code)
      requires Valid() && LoopOk(t, currentLoop.InLoop?) && LoopOk(f, currentLoop.InLoop?) && t < whole && f < whole
      modifies this, sourceCode
      ensures var b := old(Model());
              Valid() && Model() == IfEnd(b, Lower(f, ls, IfElse(b, Lower(t, ls, IfHead(e, ls, b)))))
      ensures functions == old(functions)
      decreases whole, 0
    {
      hide Model, Valid, IfHead, IfElse, IfEnd, Lower, Sane, Grows;
      ModelSane();
      ghost var b := Model();
      var parentScope := dbgScope;
      var falseBlock, mergeBlock := IfBegin(e, ls);
      IfLoop(e, ls, b);
      ModelSane();
      Generate(t, ls);
      ModelSane();
      FirstDetached(e, t, ls, b);
      IfMiddle(mergeBlock, falseBlock, parentScope, b);
      ModelSane();
      Generate(f, ls);
      ModelSane();
      SecondDetached(e, t, f, ls, b);
      IfFinish(mergeBlock, parentScope, b);
    }

    static lemma IfLoop(e: Expr, ls: Locals, b: Builder)
      ensures IfHead(e, ls, b).cfg.loop == b.cfg.loop && IfThenHead(e, ls, b).cfg.loop == b.cfg.loop
    {}

    /** The blocks of the statement at b still to be listed when its first lambda has been generated. */
    static lemma FirstDetached(e: Expr, t: Code, ls: Locals, b: Builder)
      requires Sane(b.cfg)
      ensures var b2 := Lower(t, ls, IfHead(e, ls, b));
              FalseOf(b) in b2.cfg.code && b2.cfg.loop == b.cfg.loop && IfElse(b, b2).cfg.loop == b.cfg.loop
    {
      hide Lower, IfElse;
      var b1 := IfHead(e, ls, b);
      IfHeadSane(e, ls, b);
      LowerGrows(t, ls, b1);
      FirstArmShape(e, ls, b, Lower(t, ls, b1));
    }

    static lemma SecondDetached(e: Expr, t: Code, f: Code, ls: Locals, b: Builder)
      requires Sane(b.cfg)
      ensures var b4 := Lower(f, ls, IfElse(b, Lower(t, ls, IfHead(e, ls, b))));
              MergeOf(b) in b4.cfg.code && b4.cfg.loop == b.cfg.loop
    {
      hide Lower, IfElse, IfHead, FirstArm, SecondArm, TestIns;
      var b1 := IfHead(e, ls, b);
      IfHeadSane(e, ls, b);
      LowerGrows(t, ls, b1);
      var b2 := Lower(t, ls, b1);
      FirstArmShape(e, ls, b, b2);
      var b3 := IfElse(b, b2);
      SecondArmStart(b, b1, b2, b3, TestIns(e, ls, b, TrueOf(b), FalseOf(b)));
      LowerGrows(f, ls, b3);
    }

    method IfMiddle(mergeBlock: Label, falseBlock: Label, parentScope: Scope, ghost b: Builder)
      requires Valid() && falseBlock in blocks && falseBlock == FalseOf(b) && mergeBlock == MergeOf(b) &&
               parentScope == b.scope
      modifies `exitedBlock, `blocks, `debugLoc, `blockList, `insertPoint, `dbgScope, sourceCode
      ensures Valid() && Model() == IfElse(b, old(Model()))
    {
      hide Model, CloseBlock, OpenBlock;
      ModelSane();
      ghost var b2 := Model();
      CloseScope("} else {", mergeBlock, parentScope);
      CloseKeeps(b2, "} else {", mergeBlock, parentScope, falseBlock);
      ModelSane();
      EnterBlock(falseBlock);
      OpenScope(falseBlock, parentScope);
    }

    static lemma CloseKeeps(b: Builder, text: string, target: Label, parent: Scope, l: Label)
      requires l in b.cfg.code
      ensures l in CloseBlock(b, text, target, parent).cfg.code
    {}

    method IfFinish(mergeBlock: Label, parentScope: Scope, ghost b: Builder)
      requires Valid() && mergeBlock in blocks && mergeBlock == MergeOf(b) && parentScope == b.scope
      modifies `exitedBlock, `blocks, `debugLoc, `blockList, `insertPoint, `dbgScope, sourceCode
      ensures Valid() && Model() == IfEnd(b, old(Model()))
    {
      hide Model, CloseBlock;
      ModelSane();
      ghost var b4 := Model();
      CloseScope("}", mergeBlock, parentScope);
      CloseKeeps(b4, "}", mergeBlock, parentScope, mergeBlock);
      SetScope(parentScope);
      ModelSane();
      EnterBlock(mergeBlock);
    }

    method SetScope(scope: Scope)
      requires Valid()
      modifies `dbgScope
      ensures Valid() && Model() == old(Model()).(scope := scope)
    {
      dbgScope := scope;
    }

    /** if_ with one lambda. */
    method IfThen(e: Expr, t: Code, ls: Locals, ghost whole: Code)
      requires Valid() && LoopOk(t, currentLoop.InLoop?) && t < whole
      modifies this, sourceCode
      ensures var b := old(Model());
              Valid() && Model() == IfThenEnd(b, Lower(t, ls, IfThenHead(e, ls, b)))
      ensures functions == old(functions)
      decreases whole, 0
    {
      hide Model, IfThenHead, Lower, Sane, Grows, CloseBlock;
      ModelSane();
      ghost var b := Model();
      var parentScope := dbgScope;
      var mergeBlock := IfThenBegin(e, ls);
      IfLoop(e, ls, b);
      ModelSane();
      Generate(t, ls);
      ModelSane();
      ThenDetached(e, t, ls, b);
      IfThenFinish(mergeBlock, parentScope, b);
    }

    method IfThenFinish(mergeBlock: Label, parentScope: Scope, ghost b: Builder)
      requires Valid() && mergeBlock in blocks && mergeBlock == MergeOnlyOf(b) && parentScope == b.scope
      modifies `exitedBlock, `blocks, `debugLoc, `blockList, `insertPoint, `dbgScope, sourceCode
      ensures Valid() && Model() == IfThenEnd(b, old(Model()))
    {
      hide Model, CloseBlock;
      ModelSane();
      ghost var b2 := Model();
      CloseScope("}", mergeBlock, parentScope);
      CloseKeeps(b2, "}", mergeBlock, parentScope, mergeBlock);
      SetScope(parentScope);
      ModelSane();
      EnterBlock(mergeBlock);
    }

    static lemma ThenDetached(e: Expr, t: Code, ls: Locals, b: Builder)
      requires Sane(b.cfg)
      ensures MergeOnlyOf(b) in Lower(t, ls, IfThenHead(e, ls, b)).cfg.code
    {
      hide Lower;
      IfThenHeadShape(e, ls, b);
      LowerGrows(t, ls, IfThenHead(e, ls, b));
    }

    method IfThenBegin(e: Expr, ls: Locals) returns (mergeBlock: Label)
      requires Valid()
      modifies `blocks, `blockList, `insertPoint, `debugLoc, `nextReg, `nextLabel, `dbgScope, sourceCode
      ensures Valid() && Model() == IfThenHead(e, ls, old(Model())) && mergeBlock == MergeOnlyOf(old(Model()))
    {
      hide Emitted, Show, Emit, OpenBlock, Model, IfThenBlocks;
      ModelSane();
      ghost var b := Model();
      AddSourceLine(IfText(e, ls));
      var trueBlock;
      trueBlock, mergeBlock := CreateIfThenBlocks();
      BlocksKeep(Line(b, IfText(e, ls)));
      Branch(e, ls, trueBlock, mergeBlock);
      OpenScope(trueBlock, dbgScope);
    }

    method CreateIfThenBlocks() returns (trueBlock: Label, mergeBlock: Label)
      requires Valid()
      modifies `blocks, `blockList, `nextLabel
      ensures var b := old(Model());
              Valid() && Model() == IfThenBlocks(b) && trueBlock == TrueOf(b) && mergeBlock == MergeOnlyOf(b) &&
              trueBlock in blocks
    {
      hide Model;
      ModelSane();
      ghost var b := Model();
      trueBlock := CreateBlock(TrueBlock);
      PushBack(trueBlock);
      assert Model() == b.(cfg := PushBlock(Detached(b.cfg, TrueOf(b)), TrueOf(b)));
      mergeBlock := CreateBlock(MergeBlock);
      ModelSane();
      assert trueBlock in Model().cfg.code;
    }

    // ----- while_ -----

    /** The reads of a loop condition, made wherever the builder stands. */
    method GenerateReads(rds: seq<Read>, ls: Locals) returns (ls1: Locals)
      requires Valid()
      modifies `blocks, `nextReg, `debugLoc, `idCounter, sourceCode
      ensures Valid() && (Model(), ls1) == LowerReads(rds, ls, old(Model()))
      decreases |rds|
    {
      hide LowerRead, ReadLocals, Model;
      ls1 := ls;
      if rds != [] {
        var v;
        match rds[0] {
          case RGet(x) => v := Get(x, ls);
          case RLoad(p) => v := Load(p, ls);
        }
        ls1 := GenerateReads(rds[1..], PushValue(ls, v));
      }
    }

    /** while_: the condition is generated twice, the first time only for its text. */
    method While(cnd: Cond, body: Code, ls: Locals, ghost whole: Code)
      requires Valid() && LoopOk(body, true) && body < whole
      modifies this, sourceCode
      ensures var b := old(Model());
              Valid() && Model() == WhileEnd(b, Lower(body, ls, WhileHead(cnd, ls, b)))
      ensures functions == old(functions)
      decreases whole, 0
    {
      hide Model, WhileEntry, WhileTest, Lower, Sane, Grows, CloseBlock;
      ModelSane();
      ghost var b := Model();
      var parentScope, parentLoop := dbgScope, currentLoop;
      var whileContinue, whileIteration, whileBreak := WhileBegin(cnd, ls);
      ModelSane();
      LoopOpenedAt(cnd, ls, b);
      WhileCondition(cnd, ls, whileIteration, whileBreak, b);
      ModelSane();
      Generate(body, ls);
      ModelSane();
      LoopDetached(cnd, body, ls, b);
      WhileFinish(whileContinue, whileBreak, parentScope, parentLoop, b);
    }

    method WhileFinish(whileContinue: Label, whileBreak: Label, parentScope: Scope, parentLoop: Loop, ghost b: Builder)
      requires Valid() && whileBreak in blocks && whileBreak == BreakOf(b) && whileContinue == ContinueOf(b)
      requires parentScope == b.scope && parentLoop == b.cfg.loop
      modifies `exitedBlock, `blocks, `debugLoc, `blockList, `insertPoint, `dbgScope, `currentLoop, sourceCode
      ensures Valid() && Model() == WhileEnd(b, old(Model()))
    {
      hide Model, CloseBlock;
      ModelSane();
      ghost var b6 := Model();
      CloseScope("}", whileContinue, parentScope);
      CloseKeeps(b6, "}", whileContinue, parentScope, whileBreak);
      SetScope(parentScope);
      ModelSane();
      EnterBlock(whileBreak);
      SetLoop(parentLoop);
    }

    static lemma LoopOpenedAt(cnd: Cond, ls: Locals, b: Builder)
      requires Sane(b.cfg)
      ensures IterationOf(b) in WhileEntry(cnd, ls, b).cfg.code && WhileEntry(cnd, ls, b).scope == b.scope
      ensures WhileHead(cnd, ls, b).cfg.loop.InLoop?
    {
      hide WhileEntry, WhileTest;
      WhileEntryShape(cnd, ls, b);
      var b5 := WhileHeadGrows(cnd, ls, b);
    }

    static lemma LoopDetached(cnd: Cond, body: Code, ls: Locals, b: Builder)
      requires Sane(b.cfg)
      ensures BreakOf(b) in Lower(body, ls, WhileHead(cnd, ls, b)).cfg.code
    {
      hide Lower, WhileEntry, WhileTest;
      var b5 := WhileHeadGrows(cnd, ls, b);
      LowerGrows(body, ls, b5);
    }

    method SetLoop(loop: Loop)
      requires Valid()
      modifies `currentLoop
      ensures Valid() && Model() == old(Model()).(cfg := old(Model()).cfg.(loop := loop))
    {
      currentLoop := loop;
    }

    method WhileBegin(cnd: Cond, ls: Locals) returns (whileContinue: Label, whileIteration: Label, whileBreak: Label)
      requires Valid()
      modifies `blocks, `blockList, `insertPoint, `debugLoc, `nextReg, `nextLabel, `currentLoop, `idCounter, sourceCode
      ensures var b := old(Model());
              Valid() && Model() == WhileEntry(cnd, ls, b) &&
              whileContinue == ContinueOf(b) && whileIteration == IterationOf(b) && whileBreak == BreakOf(b)
    {
      hide LowerReads, Show, Emit, Model;
      ModelSane();
      ghost var b := Model();
      var line := sourceCode.CurrentLine();
      HeaderLine(line);
      SetDebugLocation(line + 1, dbgScope);
      var ls1 := GenerateReads(cnd.first, ls);
      ReadsLabel(cnd.first, ls, SetLoc(b, CurrentLine(b) + 1, b.scope));
      AddLine("while (" + Show(cnd.test, ls1.vals) + ") {");
      whileContinue, whileIteration, whileBreak := EnterWhile(b);
    }

    lemma HeaderLine(line: nat)
      requires Valid() && line == |sourceCode.lines| + 1
      ensures CurrentLine(Model()) == line && Model().scope == dbgScope
    {}

    static lemma {:induction false} ReadsLabel(rds: seq<Read>, ls: Locals, b: Builder)
      ensures LowerReads(rds, ls, b).0.cfg.nextLabel == b.cfg.nextLabel
      decreases |rds|
    {
      hide ReadLocals;
      if rds != [] {
        ReadsLabel(rds[1..], ReadLocals(rds[0], ls, b), LowerRead(rds[0], ls, b));
      }
    }

    method AddLine(text: string)
      requires Valid()
      modifies sourceCode
      ensures Valid() && Model() == Lowering.AddLine(old(Model()), text)
    {
      var lineNo := sourceCode.AddLine(text);
    }

    /** Create a loop's blocks, make it the loop in force, and go to its header. */
    method EnterWhile(ghost b: Builder) returns (whileContinue: Label, whileIteration: Label, whileBreak: Label)
      requires Valid() && Model().cfg.nextLabel == b.cfg.nextLabel
      modifies `blocks, `blockList, `insertPoint, `nextLabel, `currentLoop
      ensures Valid() && Model() == EnterLoop(b, old(Model()))
      ensures whileContinue == ContinueOf(b) && whileIteration == IterationOf(b) && whileBreak == BreakOf(b)
    {
      hide Model, Emit;
      ModelSane();
      ghost var b2 := Model();
      whileContinue := CreateBlock(WhileContinue);
      PushBack(whileContinue);
      assert Model() == b2.(cfg := PushBlock(Detached(b2.cfg, ContinueOf(b)), ContinueOf(b)));
      whileIteration := CreateBlock(WhileIteration);
      whileBreak := CreateBlock(WhileBreak);
      SetLoop(InLoop(whileContinue, whileBreak));
      ModelSane();
      ghost var b3 := Model();
      assert whileContinue in b3.cfg.code;
      Insert(IBr(whileContinue));
      EmitKeeps(b3, [IBr(whileContinue)], b3.cfg.nextReg, whileContinue);
      ModelSane();
      SetInsertPoint(whileContinue);
    }

    /** The loop header: the condition once more, deciding, and the start of the body. */
    method WhileCondition(cnd: Cond, ls: Locals, whileIteration: Label, whileBreak: Label, ghost b: Builder)
      requires Valid() && whileIteration in blocks && whileIteration == IterationOf(b) && whileBreak == BreakOf(b) &&
               dbgScope == b.scope
      modifies `blocks, `blockList, `insertPoint, `debugLoc, `nextReg, `idCounter, `dbgScope, sourceCode
      ensures Valid() && Model() == WhileTest(cnd, ls, b, old(Model()))
    {
      hide Model, Emit, LowerReads, OpenBlock, Emitted;
      ModelSane();
      ghost var b3 := Model();
      var parentScope := dbgScope;
      var ls4 := GenerateReads(cnd.first, ls);
      ReadsKeep(cnd.first, ls, b3, whileIteration);
      ModelSane();
      Branch(cnd.test, ls4, whileIteration, whileBreak);
      PushBack(whileIteration);
      OpenScope(whileIteration, parentScope);
    }

    static lemma ReadsKeep(rds: seq<Read>, ls: Locals, b: Builder, l: Label)
      requires Sane(b.cfg) && l in b.cfg.code
      ensures l in LowerReads(rds, ls, b).0.cfg.code
    {
      hide LowerReads, ReadsCode;
      LowerReadsShape(rds, ls, b);
    }

    // ----- lambdas and functions -----

    /** Run a lambda body: its statements in order. */
    method Generate(c: Code, ls: Locals)
      requires Valid() && LoopOk(c, currentLoop.InLoop?)
      modifies this, sourceCode
      ensures Valid() && Model() == Lower(c, ls, old(Model())) && functions == old(functions)
      decreases c, 1
    {
      hide Model, LowerBreak, LowerContinue, LowerReturn, LowerReturnVoid, LowerAction, ActionLocals, LowerCall,
           CallLocals,
           IfHead, IfElse, IfEnd, IfThenHead, IfThenEnd, WhileHead, WhileEnd;
      ModelSane();
      match c
      case Done =>
      case Break => Break();
      case Continue => Continue();
      case Return(e) => Return(e, ls);
      case ReturnVoid => ReturnVoid();
      case Act(a, next) =>
        var ls1 := Perform(a, ls);
        Generate(next, ls1);
      case Call(fn, args, next) =>
        var v := Call(fn, args, ls);
        Generate(next, PushValue(ls, v));
      case If(e, t, f, next) =>
        ghost var b := Model();
        If(e, t, f, ls, c);
        EndLoops(b, Lower(f, ls, IfElse(b, Lower(t, ls, IfHead(e, ls, b)))));
        SecondDetached(e, t, f, ls, b);
        ModelSane();
        Generate(next, ls);
      case IfThen(e, t, next) =>
        ghost var b := Model();
        IfThen(e, t, ls, c);
        EndLoops(b, Lower(t, ls, IfThenHead(e, ls, b)));
        ThenLoop(e, t, ls, b);
        ModelSane();
        Generate(next, ls);
      case While(cnd, body, next) =>
        ghost var b := Model();
        While(cnd, body, ls, c);
        EndLoops(b, Lower(body, ls, WhileHead(cnd, ls, b)));
        ModelSane();
        Generate(next, ls);
    }

    static lemma EndLoops(b: Builder, b2: Builder)
      ensures IfEnd(b, b2).cfg.loop == IfThenEnd(b, b2).cfg.loop == b2.cfg.loop &&
              WhileEnd(b, b2).cfg.loop == b.cfg.loop
    {}

    static lemma ThenLoop(e: Expr, t: Code, ls: Locals, b: Builder)
      requires Sane(b.cfg)
      ensures Lower(t, ls, IfThenHead(e, ls, b)).cfg.loop == b.cfg.loop
    {
      hide Lower;
      IfThenHeadShape(e, ls, b);
      LowerGrows(t, ls, IfThenHead(e, ls, b));
    }

    /** A straight-line statement; the locals in scope after it are returned. */
    method Perform(a: Action, ls: Locals) returns (ls1: Locals)
      requires Valid()
      modifies `blocks, `slots, `nextReg, `debugLoc, `idCounter, sourceCode
      ensures Valid() && Model() == LowerAction(a, ls, old(Model())) && ls1 == ActionLocals(a, ls, old(Model()))
    {
      hide Model, LowerRead, ReadLocals, EmittedArgs, Emitted, Emit, Line, Show;
      ls1 := ls;
      match a
      case ReadValue(RGet(x)) =>
        var v := this.Get(x, ls);
        ls1 := PushValue(ls, v);
      case ReadValue(RLoad(p)) =>
        var v := this.Load(p, ls);
        ls1 := PushValue(ls, v);
      case Declare(ty, name) =>
        SlotCount();
        var v := this.Variable(ty, name);
        ls1 := ls.(vars := ls.vars + [v]);
      case Set(x, e) => this.Set(x, e, ls);
      case Store(e, p) => this.Store(e, p, ls);
      case MemCmp(p, q, n) =>
        var v := this.MemCmp(p, q, n, ls);
        ls1 := PushValue(ls, v);
    }

    lemma SlotCount()
      requires Valid()
      ensures |Model().cfg.slots| == |slots|
    {}

    /** The signature's line and a fresh entry block. current_loop_ is left as it is. */
    method StartFunction(f: FnDef)
      requires Valid()
      modifies this, sourceCode
      ensures Valid() && Model() == BeginFunction(f, old(Model())) && functions == old(functions)
    {
      hide TyName, ParamText, Model;
      FreshFunction(f);
      AddLine(TyName(f.ret) + " " + f.name + "(" + ParamText(f.params, 0) + ") {");
      Indented();
    }

    method FreshFunction(f: FnDef)
      requires Valid()
      modifies this
      ensures var b := old(Model());
              var g := Cfg(map[ENTRY := []], [ENTRY], ENTRY, 1, |f.params|, [], false, b.cfg.loop, NoLoc);
              Valid() && Model() == Builder(g, b.src, FnScope(b.scope, f.name, CurrentLine(b))) &&
              functions == old(functions)
    {
      hide Stripped, AllocaPrefix, Join;
      exitedBlock := false;
      var line := sourceCode.CurrentLine();
      dbgScope := FnScope(dbgScope, f.name, line);
      debugLoc := NoLoc;
      FreshEntry(|f.params|);
    }

    method FreshEntry(params: nat)
      requires Valid()
      modifies `blocks, `blockList, `slots, `insertPoint, `nextLabel, `nextReg
      ensures Valid()
      ensures var b := old(Model());
              Model() == b.(cfg := Cfg(map[ENTRY := []], [ENTRY], ENTRY, 1, params, [],
                b.cfg.exited, b.cfg.loop, b.cfg.loc))
    {
      hide Stripped, AllocaPrefix, Join;
      FreshBlocks();
      blocks, blockList, slots := map[ENTRY := []], [ENTRY], [];
      insertPoint, nextLabel, nextReg := ENTRY, 1, params;
    }

    static lemma FreshBlocks()
      ensures AllocaPrefix([]) == [] && Stripped(map[ENTRY := []], []) == map[ENTRY := []]
    {}

    method Indented()
      requires Valid()
      modifies sourceCode
      ensures Valid() && Model() == Indent(old(Model()))
    {
      sourceCode.EnterScope();
    }

    /** The function joins the module. */
    method Finished()
      requires Valid()
      modifies `functions
      ensures Valid() && Model() == old(Model()) && functions == old(functions) + [Finish(old(Model()).cfg)]
    {
      FinishedBlocks();
      functions := functions + [Fn(blocks, blockList, slots)];
    }

    method FinishFunction(parentScope: Scope)
      requires Valid()
      modifies `dbgScope, sourceCode
      ensures Valid() && Model() == EndFunction(parentScope, old(Model()))
    {
      sourceCode.LeaveScope();
      var lineNo := sourceCode.AddLine("}");
      dbgScope := parentScope;
    }

    /** The finished function is the specification's: its allocas are where Finish puts them. */
    lemma FinishedBlocks()
      requires Valid()
      ensures Finish(Model().cfg) == Fn(blocks, blockList, slots)
    {
      assert blocks[ENTRY] == AllocaPrefix(slots) + blocks[ENTRY][|slots|..];
    }

    static lemma BeginLoop(f: FnDef, b: Builder)
      ensures BeginFunction(f, b).cfg.loop == b.cfg.loop
    {}

    /** create_function: a fresh entry block, the signature, the lambda, and the closing line. */
    method CreateFunction(f: FnDef) returns (fn: FnRef)
      requires Valid() && LoopOk(f.body, currentLoop.InLoop?)
      modifies this, sourceCode
      ensures var b := old(Model());
              var h := Lower(f.body, Params(|f.params|), BeginFunction(f, b));
              Valid() && Model() == EndFunction(b.scope, h) && functions == old(functions) + [Finish(h.cfg)]
      ensures fn == FnRef(|old(functions)|, f.name, f.params, f.ret)
    {
      hide Model, Lower, BeginFunction, EndFunction, Finish, Params;
      ModelSane();
      ghost var b := Model();
      var parentScope := dbgScope;
      StartFunction(f);
      ModelSane();
      BeginLoop(f, b);
      Generate(f.body, Params(|f.params|));
      fn := FnRef(|functions|, f.name, f.params, f.ret);
      Finished();
      FinishFunction(parentScope);
    }

    /** What a client does: create its functions one after the other, with one builder. */
    method CreateAll(fns: seq<FnDef>)
      requires Valid() && Model() == FRESH && functions == []
      requires forall k :: 0 <= k < |fns| ==> LoopOk(fns[k].body, false)
      modifies this, sourceCode
      ensures Valid() && functions == Compile(fns) && Model() == Before(fns, |fns|)
    {
      hide Model, Lower, BeginFunction, EndFunction, Finish, Params, LoopOk;
      for k := 0 to |fns|
        invariant Valid() && Model() == Before(fns, k) && functions == Compile(fns)[..k]
      {
        ModelSane();
        BeforeLoop(fns, k);
        var fn := CreateFunction(fns[k]);
      }
    }
  }
}