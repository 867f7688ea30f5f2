/** Hoisting: each declaration becomes one alloca, they all stand at the head of the entry block, and
    nothing ever branches back there, so a call allocates each variable once. */
module Allocas {
  import opened Types
  import opened Source
  import opened Ir
  import opened Text
  import opened Lowering
  import opened Shapes
  import opened Flow
  import opened Layout
  import opened Structure
  import opened Finished
  import opened Ssa

  /** The variables a lambda declares, in the order of its text. */
  function Declared(c: Code): seq<Ty> {
    match c
    case Act(a, next) => (if a.Declare? then [a.ty] else []) + Declared(next)
    case Call(_, _, next) => Declared(next)
    case If(_, t, f, next) => Declared(t) + Declared(f) + Declared(next)
    case IfThen(_, t, next) => Declared(t) + Declared(next)
    case While(_, body, next) => Declared(body) + Declared(next)
    case _ => []
  }

  lemma {:induction false} ReadsDeclareNone(rds: seq<Read>, ls: Locals, b: Builder)
    ensures LowerReads(rds, ls, b).0.cfg.slots == b.cfg.slots
    decreases |rds|
  {
    hide ReadCode, ReadLocals, Show;
    if rds != [] {
      ReadsDeclareNone(rds[1..], ReadLocals(rds[0], ls, b), LowerRead(rds[0], ls, b));
    }
  }

  lemma HeadsDeclareNone(e: Expr, cnd: Cond, ls: Locals, b: Builder)
    ensures IfHead(e, ls, b).cfg.slots == b.cfg.slots && IfThenHead(e, ls, b).cfg.slots == b.cfg.slots
    ensures WhileHead(cnd, ls, b).cfg.slots == b.cfg.slots
  {
    hide Show, Emitted, LowerReads;
    ReadsDeclareNone(cnd.first, ls, SetLoc(b, CurrentLine(b) + 1, b.scope));
    ReadsDeclareNone(cnd.first, ls, WhileEntry(cnd, ls, b));
  }

  lemma TailsDeclareNone(b: Builder, b2: Builder)
    ensures IfElse(b, b2).cfg.slots == b2.cfg.slots && IfEnd(b, b2).cfg.slots == b2.cfg.slots
    ensures IfThenEnd(b, b2).cfg.slots == b2.cfg.slots && WhileEnd(b, b2).cfg.slots == b2.cfg.slots
  {}

  lemma StatementSlots(a: Action, fn: FnRef, args: seq<Expr>, ls: Locals, b: Builder)
    ensures LowerAction(a, ls, b).cfg.slots == b.cfg.slots + if a.Declare? then [a.ty] else []
    ensures LowerCall(fn, args, ls, b).cfg.slots == b.cfg.slots
  {
    hide Show, ShowArgs, Emitted, EmittedArgs, TyName;
    assert b.cfg.slots + [] == b.cfg.slots;
  }

  /** A lambda's allocas are its declarations, those in arms and loop bodies included. */
  lemma {:induction false} SlotsDeclared(c: Code, ls: Locals, b: Builder)
    ensures Lower(c, ls, b).cfg.slots == b.cfg.slots + Declared(c)
    decreases c, 1
  {
    hide Show, Emitted, LowerAction, LowerCall, ActionLocals, CallLocals, LowerIf, IfThenHead, IfThenEnd, WhileHead,
         WhileEnd;
    var slots := b.cfg.slots;
    match c
    case Act(a, next) =>
      var own := if a.Declare? then [a.ty] else [];
      StatementSlots(a, FnRef(0, "", [], TVoid), [], ls, b);
      SlotsDeclared(next, ActionLocals(a, ls, b), LowerAction(a, ls, b));
      assert slots + own + Declared(next) == slots + (own + Declared(next));
    case Call(fn, args, next) =>
      StatementSlots(Set(0, Lit(TBool, 0)), fn, args, ls, b);
      SlotsDeclared(next, CallLocals(fn, args, ls, b), LowerCall(fn, args, ls, b));
    case If(e, t, f, next) => IfSlots(e, t, f, next, ls, b);
    case IfThen(e, t, next) =>
      var b1 := IfThenHead(e, ls, b);
      var b2 := Lower(t, ls, b1);
      HeadsDeclareNone(e, Cond([], e), ls, b);
      SlotsDeclared(t, ls, b1);
      TailsDeclareNone(b, b2);
      SlotsDeclared(next, ls, IfThenEnd(b, b2));
      DeclaredTwo(t, next, slots);
    case While(cnd, body, next) =>
      var b5 := WhileHead(cnd, ls, b);
      var b6 := Lower(body, ls, b5);
      HeadsDeclareNone(cnd.test, cnd, ls, b);
      SlotsDeclared(body, ls, b5);
      TailsDeclareNone(b, b6);
      SlotsDeclared(next, ls, WhileEnd(b, b6));
      DeclaredTwo(body, next, slots);
    case _ =>
  }

  lemma {:induction false} IfSlots(e: Expr, t: Code, f: Code, next: Code, ls: Locals, b: Builder)
    ensures LowerIf(e, t, f, next, ls, b).cfg.slots == b.cfg.slots + Declared(If(e, t, f, next))
    decreases If(e, t, f, next), 0
  {
    hide Lower, IfHead, IfElse, IfEnd, Declared;
    var b1 := IfHead(e, ls, b);
    var b2 := Lower(t, ls, b1);
    var b4 := Lower(f, ls, IfElse(b, b2));
    HeadsDeclareNone(e, Cond([], e), ls, b);
    SlotsDeclared(t, ls, b1);
    TailsDeclareNone(b, b2);
    SlotsDeclared(f, ls, IfElse(b, b2));
    TailsDeclareNone(b, b4);
    SlotsDeclared(next, ls, IfEnd(b, b4));
    DeclaredIf(e, t, f, next, b.cfg.slots);
  }

  lemma DeclaredIf(e: Expr, t: Code, f: Code, next: Code, slots: seq<Ty>)
    ensures slots + Declared(If(e, t, f, next)) == slots + Declared(t) + Declared(f) + Declared(next)
  {}

  lemma DeclaredTwo(body: Code, next: Code, slots: seq<Ty>)
    ensures slots + (Declared(body) + Declared(next)) == slots + Declared(body) + Declared(next)
  {
    hide Declared;
  }

  // ----- no other instruction allocates -----

  predicate Free(ops: seq<Op>) { forall op :: op in ops ==> !op.IAlloca? }

  lemma {:induction false} EmittedFree(e: Expr, vals: seq<Value>, r: nat)
    ensures Free(Emitted(e, vals, r).ops)
    decreases e
  {
    match e
    case Val(_, _) =>
    case Lit(_, _) =>
    case Arith(_, l, rh) => EmittedFree(l, vals, r); EmittedFree(rh, vals, Emitted(l, vals, r).next);
    case Rel(_, l, rh) => EmittedFree(l, vals, r); EmittedFree(rh, vals, Emitted(l, vals, r).next);
    case PtrArith(_, l, rh) =>
      EmittedFree(rh, vals, r);
      EmittedFree(l, vals, Widen(TypeOf(rh), Emitted(rh, vals, r)).next);
    case Cast(_, e1) => EmittedFree(e1, vals, r);
    case BitCast(_, e1) => EmittedFree(e1, vals, r);
  }

  lemma {:induction false} ArgsFree(args: seq<Expr>, vals: seq<Value>, r: nat)
    ensures Free(EmittedArgs(args, vals, r).ops)
    decreases |args|
  {
    hide Emitted;
    if args != [] {
      EmittedFree(args[0], vals, r);
      ArgsFree(args[1..], vals, Emitted(args[0], vals, r).next);
    }
  }

  lemma ActionFree(a: Action, ls: Locals, r: nat)
    ensures Free(ActionCode(a, ls, r).ops)
  {
    hide Emitted, EmittedArgs;
    match a
    case ReadValue(RGet(_)) =>
    case ReadValue(RLoad(p)) => EmittedFree(p, ls.vals, r);
    case Declare(_, _) =>
    case Set(_, e) => EmittedFree(e, ls.vals, r);
    case Store(e, p) => EmittedFree(e, ls.vals, r); EmittedFree(p, ls.vals, Emitted(e, ls.vals, r).next);
    case MemCmp(p, q, n) => ArgsFree([p, q, n], ls.vals, r);
  }

  /** The same, of recorded instructions. */
  predicate Plain(ins: seq<Ins>) { forall x :: x in ins ==> !x.op.IAlloca? }

  lemma PlainLoc(ops: seq<Op>, loc: DebugLoc)
    requires Free(ops)
    ensures Plain(WithLoc(ops, loc))
  {}

  lemma {:induction false} ReadsPlain(rds: seq<Read>, ls: Locals, b: Builder)
    ensures Plain(ReadsCode(rds, ls, b))
    decreases |rds|
  {
    hide ReadCode, ReadLocals, LowerRead, WithLoc;
    if rds != [] {
      var ops := ReadCode(rds[0], ls, b.cfg.nextReg).ops;
      ActionFree(ReadValue(rds[0]), ls, b.cfg.nextReg);
      PlainLoc(ops, ReadLoc(rds[0], b));
      ReadsPlain(rds[1..], ReadLocals(rds[0], ls, b), LowerRead(rds[0], ls, b));
    }
  }

  lemma TestPlain(e: Expr, ls: Locals, b: Builder, yes: Label, no: Label)
    ensures Plain(TestIns(e, ls, b, yes, no))
  {
    hide Emitted;
    EmittedFree(e, ls.vals, b.cfg.nextReg);
  }

  lemma LoopPlain(cnd: Cond, ls: Locals, b: Builder)
    ensures Plain(EntryIns(cnd, ls, b)) && Plain(HeaderIns(cnd, ls, b, WhileEntry(cnd, ls, b)))
  {
    hide Emitted, LowerReads, ReadsCode, WhileEntry;
    var b3 := WhileEntry(cnd, ls, b);
    var (b4, ls4) := LowerReads(cnd.first, ls, b3);
    ReadsPlain(cnd.first, ls, SetLoc(b, CurrentLine(b) + 1, b.scope));
    ReadsPlain(cnd.first, ls, b3);
    EmittedFree(cnd.test, ls4.vals, b4.cfg.nextReg);
  }

  lemma {:induction false} TracePlain(c: Code, ls: Locals, b: Builder)
    ensures Plain(Trace(c, ls, b))
    decreases c
  {
    hide Emitted, EmittedArgs, ActionCode, Lower, TestIns, EntryIns, HeaderIns, IfHead, IfElse, IfEnd, IfThenHead,
         IfThenEnd, WhileEntry, WhileTest, WhileEnd;
    match c
    case Return(e) => EmittedFree(e, ls.vals, b.cfg.nextReg);
    case Act(a, next) =>
      ActionFree(a, ls, b.cfg.nextReg);
      TracePlain(next, ActionLocals(a, ls, b), LowerAction(a, ls, b));
    case Call(fn, args, next) =>
      ArgsFree(args, ls.vals, b.cfg.nextReg);
      TracePlain(next, CallLocals(fn, args, ls, b), LowerCall(fn, args, ls, b));
    case If(e, t, f, next) =>
      var b1 := IfHead(e, ls, b);
      var b3 := IfElse(b, Lower(t, ls, b1));
      TestPlain(e, ls, b, TrueOf(b), FalseOf(b));
      TracePlain(t, ls, b1);
      TracePlain(f, ls, b3);
      TracePlain(next, ls, IfEnd(b, Lower(f, ls, b3)));
    case IfThen(e, t, next) =>
      var b1 := IfThenHead(e, ls, b);
      TestPlain(e, ls, b, TrueOf(b), MergeOnlyOf(b));
      TracePlain(t, ls, b1);
      TracePlain(next, ls, IfThenEnd(b, Lower(t, ls, b1)));
    case While(cnd, body, next) =>
      var b5 := WhileTest(cnd, ls, b, WhileEntry(cnd, ls, b));
      LoopPlain(cnd, ls, b);
      TracePlain(body, ls, b5);
      TracePlain(next, ls, WhileEnd(b, Lower(body, ls, b5)));
    case _ =>
  }

  // ----- theorems -----

  /** The allocas of a finished function are exactly the first instructions of its entry block, one for
      each declaration in its text, in whatever arm or loop it stands; later ones come first. */
  lemma AllocasHoisted(src: seq<FnDef>, k: nat, l: Label, i: nat)
    requires k < |src| && LoopOk(src[k].body, false)
    requires l in CompileFn(src, k).blocks && i < |FnOps(CompileFn(src, k), l)|
    ensures var op, tys := FnOps(CompileFn(src, k), l)[i], Declared(src[k].body);
            (op.IAlloca? <==> l == ENTRY && i < |tys|) &&
            (op.IAlloca? ==> op == IAlloca(|tys| - 1 - i, tys[|tys| - 1 - i]))
  {
    hide Inv, LaidOut, BodyOf, Trace, Log, FallsThrough, EndsInExit, LoopOk, BeginFunction, Plain, Lower;
    var g := BodyOf(src, k).cfg;
    var m := BodyInv(src, k);
    var ls, b := Params(|src[k].params|), BeginFunction(src[k], Before(src, k));
    FinishedListed(g, m, l);
    FinishedAt(g, l, i);
    AllSlots(src, k);
    if i < Shift(g, l) {
      PrefixAt(g, i);
    } else {
      TracePlain(src[k].body, ls, b);
      LogIndexAt(g, {}, l, i - Shift(g, l));
      PlainOps(Log(g), LogIndex(g, l, i - Shift(g, l)));
    }
  }

  lemma PlainOps(ins: seq<Ins>, i: nat)
    requires Plain(ins) && i < |OpsOf(ins)|
    ensures !OpsOf(ins)[i].IAlloca?
  {
    assert ins[i] in ins;
  }

  lemma AllSlots(src: seq<FnDef>, k: nat)
    requires k < |src|
    ensures BodyOf(src, k).cfg.slots == Declared(src[k].body)
  {
    hide Lower, Declared;
    var ls, b := Params(|src[k].params|), BeginFunction(src[k], Before(src, k));
    SlotsDeclared(src[k].body, ls, b);
    assert b.cfg.slots == [];
    assert [] + Declared(src[k].body) == Declared(src[k].body);
  }

  lemma PrefixAt(g: Cfg, i: nat)
    requires ENTRY in g.code && i < |g.slots|
    ensures i < |FnOps(Finish(g), ENTRY)| &&
            FnOps(Finish(g), ENTRY)[i] == IAlloca(|g.slots| - 1 - i, g.slots[|g.slots| - 1 - i])
  {
    FinishOps(g, ENTRY);
  }

  /** Control is in the entry block once, at the start. */
  lemma EntryOnce(src: seq<FnDef>, k: nat, p: seq<Label>, i: nat)
    requires k < |src| && LoopOk(src[k].body, false)
    requires Walk(CompileFn(src, k), p) && i < |p| && p[i] == ENTRY
    ensures i == 0
  {
    hide EndsInExit, FnEdge, Place, Closed, Open, FnOps;
    if i > 0 {
      var f := CompileFn(src, k);
      FunctionWellFormed(src, k);
      assert FnEdge(f, p[i - 1], p[i - 1 + 1]);
      PlaceIs(f.order, 0);
    }
  }
}
