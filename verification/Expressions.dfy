/** Expression lowering: the instruction chosen for each operator means that operator, and the
    three-address code of a tree computes the tree's value wherever it is emitted. */
module Expressions {
  import opened Bits
  import opened Types
  import opened Source
  import opened Ir
  import opened Text
  import opened Lowering
  import opened Agreement

  // ----- instruction selection -----

  lemma QuotientBound(x: int, y: int)
    requires y != 0
    ensures Abs(TDiv(x, y)) <= Abs(x)
    ensures Abs(y) >= 2 ==> 2 * Abs(TDiv(x, y)) <= Abs(x)
    ensures Abs(y) == 1 ==> TDiv(x, y) == x * y
    ensures TDiv(x, y) < 0 ==> (x < 0) != (y < 0)
    ensures TDiv(x, y) > 0 ==> (x < 0) == (y < 0)
  {
    var q, r := Abs(x) / Abs(y), Abs(x) % Abs(y);
    assert Abs(x) == q * Abs(y) + r;
    if Abs(y) >= 2 {
      MulMono2(q, Abs(y));
    } else {
      assert y == 1 || y == -1;
    }
  }

  lemma MulMono2(q: nat, m: int)
    requires m >= 2
    ensures q * m >= 2 * q
  {
    assert q * m == q * (m - 2) + 2 * q;
  }

  /** A signed quotient overflows in exactly one case. */
  lemma QuotientFits(t: Ty, x: int, y: int)
    requires InRange(t, x) && InRange(t, y) && y != 0
    ensures InRange(t, TDiv(x, y)) <==> !(IsSigned(t) && x == -Pow2(Width(t) - 1) && y == -1)
  {
    QuotientBound(x, y);
    if Abs(y) == 1 {
      assert y == 1 || y == -1;
    }
  }

  lemma RemainderFits(t: Ty, x: int, y: int)
    requires InRange(t, x) && InRange(t, y) && y != 0
    ensures InRange(t, TRem(x, y))
  {
    RemainderBound(Abs(x), Abs(y));
  }

  lemma RemainderBound(x: nat, y: nat)
    requires y != 0
    ensures 0 <= x % y <= x
  {
    assert x == (x / y) * y + x % y;
    assert (x / y) * y >= 0;
  }

  /** The selected instruction is defined exactly when the operation is, and then yields its pattern. */
  lemma SelectArithCorrect(op: ArithOp, t: Ty, x: int, y: int)
    requires IsIntegral(t) && InRange(t, x) && InRange(t, y)
    ensures EvalBin(SelectArith(op, t), Width(t), PatOf(t, x), PatOf(t, y)) ==
            match Arithmetic(op, t, x, y)
            case None => None
            case Some(v) => Some(PatOf(t, v))
    ensures Arithmetic(op, t, x, y).Some? ==> InRange(t, Arithmetic(op, t, x, y).value)
  {
    var w, a, b := Width(t), PatOf(t, x), PatOf(t, y);
    PatVal(t, x);
    PatVal(t, y);
    match op
    case PlusOp => WrapAdd(t, x, y);
    case MinusOp => WrapSub(t, x, y);
    case TimesOp => WrapMul(t, x, y);
    case AndOp => NormPattern(t, BitAnd(w, a, b));
    case OrOp => NormPattern(t, BitOr(w, a, b));
    case XorOp => NormPattern(t, BitXor(w, a, b));
    case DivOp => DivisionCorrect(t, x, y);
    case ModOp => DivisionCorrect(t, x, y);
  }

  lemma WrapAdd(t: Ty, x: int, y: int)
    requires !t.TVoid?
    ensures InRange(t, Norm(t, x + y)) && Pat(Width(t), PatOf(t, x) + PatOf(t, y)) == PatOf(t, Norm(t, x + y))
  {
    ModAdd(x, y, Pow2(Width(t)));
    NormProps(t, x + y);
  }

  lemma WrapSub(t: Ty, x: int, y: int)
    requires !t.TVoid?
    ensures InRange(t, Norm(t, x - y)) && Pat(Width(t), PatOf(t, x) - PatOf(t, y)) == PatOf(t, Norm(t, x - y))
  {
    ModSub(x, y, Pow2(Width(t)));
    NormProps(t, x - y);
  }

  lemma WrapMul(t: Ty, x: int, y: int)
    requires !t.TVoid?
    ensures InRange(t, Norm(t, x * y)) && Pat(Width(t), PatOf(t, x) * PatOf(t, y)) == PatOf(t, Norm(t, x * y))
  {
    ModMul(x, y, Pow2(Width(t)));
    NormProps(t, x * y);
  }

  lemma NormPattern(t: Ty, p: nat)
    requires !t.TVoid? && p < Pow2(Width(t))
    ensures InRange(t, Norm(t, p)) && PatOf(t, Norm(t, p)) == p
  {
    NormProps(t, p);
    ModSmall(p, Pow2(Width(t)));
  }

  lemma DivisionCorrect(t: Ty, x: int, y: int)
    requires IsIntegral(t) && InRange(t, x) && InRange(t, y)
    ensures EvalBin(SelectArith(DivOp, t), Width(t), PatOf(t, x), PatOf(t, y)) ==
            if y == 0 || !InRange(t, TDiv(x, y)) then None else Some(PatOf(t, TDiv(x, y)))
    ensures EvalBin(SelectArith(ModOp, t), Width(t), PatOf(t, x), PatOf(t, y)) ==
            if y == 0 || !InRange(t, TDiv(x, y)) then None else Some(PatOf(t, TRem(x, y)))
    ensures y != 0 ==> InRange(t, TRem(x, y))
  {
    PatVal(t, x);
    PatVal(t, y);
    if y != 0 {
      QuotientFits(t, x, y);
      RemainderFits(t, x, y);
      if !IsSigned(t) {
        ModSmall(TDiv(x, y), Pow2(Width(t)));
        ModSmall(TRem(x, y), Pow2(Width(t)));
      }
    }
  }

  lemma SelectRelCorrect(op: RelOp, t: Ty, x: int, y: int)
    requires IsIntegral(t) && InRange(t, x) && InRange(t, y)
    ensures EvalPred(SelectRel(op, t), Width(t), PatOf(t, x), PatOf(t, y)) <==> Relation(op, x, y)
  {
    PatVal(t, x);
    PatVal(t, y);
  }

  /** Casts between integers: sign extension, zero extension and truncation all keep the value
      modulo the target width. */
  function Converted(from: Ty, to: Ty, p: nat): nat {
    if Width(from) == Width(to) then p
    else if Width(from) > Width(to) then Pat(Width(to), p)
    else if IsSigned(from) then Pat(Width(to), Signed(Width(from), p))
    else p
  }

  lemma ConvertedCorrect(from: Ty, to: Ty, x: int)
    requires IsIntegral(from) && IsIntegral(to) && InRange(from, x)
    ensures Converted(from, to, PatOf(from, x)) == PatOf(to, Norm(to, x))
  {
    var w, v := Width(from), Width(to);
    NormProps(to, x);
    PatVal(from, x);
    if w > v {
      Pow2Add(v, w - v);
      ModMod(x, Pow2(v), Pow2(w - v));
    } else if w < v && !IsSigned(from) {
      Pow2Mono(w, v);
      ModSmall(x, Pow2(v));
      ModSmall(x, Pow2(w));
    }
  }

  lemma ElementAddressCorrect(p: int, index: nat, i: int, scale: nat)
    requires index == Pat(64, i)
    ensures ElementAddress(p, index, scale) == Advance(false, p, i, scale)
  {
    SignedMod(index);
    ScaleMod(p, Signed(64, index), i, scale, Pow2(64));
  }

  /** Widening an offset by its own signedness keeps its value, for addition and for subtraction. */
  lemma OffsetCorrect(t: Ty, p: int, i: int, scale: nat)
    requires IsIntegral(t) && InRange(t, i) && Size(t) <= 8
    ensures ElementAddress(p, WidePat(t, i), scale) == Advance(false, p, i, scale)
    ensures ElementAddress(p, Pat(64, 0 - WidePat(t, i)), scale) == Advance(true, p, i, scale)
  {
    hide ElementAddress, WidePat, Scaled, Pow2, InRange;
    WidePatMod(t, i);
    ElementAddressCorrect(p, WidePat(t, i), i, scale);
    NegMod(WidePat(t, i), i);
    ElementAddressCorrect(p, Pat(64, 0 - WidePat(t, i)), -i, scale);
  }

  lemma NegMod(w: nat, i: int)
    requires w == Pat(64, i)
    ensures Pat(64, 0 - w) == (-i) % Pow2(64)
  {
    NegModM(w, i, Pow2(64));
  }

  lemma NegModM(w: nat, i: int, m: int)
    requires m > 0 && w == i % m
    ensures (0 - w) % m == (-i) % m
  {
    ModSub(0, i, m);
    ModSmall(0, m);
  }

  /** The 64-bit offset operand: extended when narrower, as it is otherwise. */
  function WidePat(t: Ty, i: int): (p: nat)
    requires Size(t) <= 8
  {
    if Size(t) < 8 then (if IsSigned(t) then Pat(64, Signed(Width(t), PatOf(t, i))) else PatOf(t, i))
    else PatOf(t, i)
  }

  lemma WidePatMod(t: Ty, i: int)
    requires IsIntegral(t) && InRange(t, i) && Size(t) <= 8
    ensures WidePat(t, i) == Pat(64, i) && WidePat(t, i) < Pow2(64)
  {
    PatVal(t, i);
    if Size(t) < 8 && !IsSigned(t) {
      Pow2Mono(Width(t), 64);
      ModSmall(i, Pow2(Width(t)));
      ModSmall(i, Pow2(64));
    }
  }

  lemma SignedMod(p: nat)
    requires p < Pow2(64)
    ensures Signed(64, p) % Pow2(64) == p
  {
    SignedOfPat(64, p);
  }

  lemma ScaleMod(p: int, a: int, b: int, scale: nat, m: int)
    requires m > 0 && a % m == b % m
    ensures (p + Scaled(a, scale)) % m == (p + Scaled(b, scale)) % m
    decreases scale
  {
    if scale > 0 {
      ModAdd(p, a, m);
      ModAdd(p, b, m);
      ScaleMod(p + a, a, b, scale - 1, m);
      ModAdd(p + a, Scaled(b, scale - 1), m);
      ModAdd(p + b, Scaled(b, scale - 1), m);
    }
  }

  // ----- what a scope's values hold -----

  lemma OpKept(o: Operand, a: Regs, b: Regs, n: nat, slots: Regs)
    requires OpBelow(o, n) && SameBelow(a, b, n)
    ensures OpVal(o, b, slots) == OpVal(o, a, slots) == OpVal(o, a, map[])
  {}

  lemma ValsKept(vals: seq<Value>, env: Env, a: Regs, b: Regs, n: nat, n': nat)
    requires ValsMatch(vals, env, a, n) && SameBelow(a, b, n) && n <= n'
    ensures ValsMatch(vals, env, b, n')
  {
    forall i | 0 <= i < |env|
      ensures ValMatch(vals[i], env[i], b, n')
    {
      assert ValMatch(vals[i], env[i], a, n);
      if !env[i].ty.TVoid? {
        OpKept(vals[i].op, a, b, n, map[]);
      }
    }
  }

  // ----- three-address code -----

  lemma RunOne(op: Op, slots: Regs, k: Core)
    requires IsStraight(op)
    ensures RunOps([op], slots, k) == StepOp(op, slots, k)
  {
    match StepOp(op, slots, k)
    case None =>
    case Some(k1) => assert [op][1..] == [];
  }

  /** One more instruction at the end of code that computes p. */
  lemma ComputesThen(c: ExprCode, r: nat, slots: Regs, k: Core, p: nat, op: Op, q: nat)
    requires Computes(c, r, slots, k, p) && IsStraight(op)
    requires StepOp(op, slots, After(c.ops, slots, k)) ==
             Some(After(c.ops, slots, k).(regs := After(c.ops, slots, k).regs[c.next := q]))
    ensures Computes(ExprCode(c.ops + [op], Reg(c.next), c.next + 1), r, slots, k, q)
    ensures OpVal(c.res, After(c.ops + [op], slots, k).regs, slots) == Some(p)
    ensures After(c.ops + [op], slots, k).regs == After(c.ops, slots, k).regs[c.next := q]
  {
    RunOpsAppend(c.ops, [op], slots, k);
    RunOne(op, slots, After(c.ops, slots, k));
  }

  /** Two trees evaluated in turn: the first result survives the second evaluation. */
  lemma ComputesTwo(a: ExprCode, b: ExprCode, r: nat, slots: Regs, k: Core, p: nat, q: nat)
    requires Computes(a, r, slots, k, p) && Computes(b, a.next, slots, After(a.ops, slots, k), q)
    ensures Computes(ExprCode(a.ops + b.ops, b.res, b.next), r, slots, k, q)
    ensures After(a.ops + b.ops, slots, k) == After(b.ops, slots, After(a.ops, slots, k))
    ensures OpVal(a.res, After(a.ops + b.ops, slots, k).regs, slots) == Some(p)
  {
    RunOpsAppend(a.ops, b.ops, slots, k);
    var k1 := After(a.ops, slots, k);
    OpKept(a.res, k1.regs, After(b.ops, slots, k1).regs, a.next, slots);
  }

  lemma ConvertComputes(from: Ty, to: Ty, c: ExprCode, r: nat, slots: Regs, k: Core, p: nat)
    requires Computes(c, r, slots, k, p)
    ensures Computes(Convert(from, to, c), r, slots, k, Converted(from, to, p))
  {
    if Width(from) != Width(to) {
      var op := if Width(from) > Width(to) then ITrunc(c.next, Width(from), Width(to), c.res)
                else if IsSigned(from) then ISExt(c.next, Width(from), Width(to), c.res)
                else IZExt(c.next, Width(from), Width(to), c.res);
      ComputesThen(c, r, slots, k, p, op, Converted(from, to, p));
    }
  }

  lemma WidenComputes(t: Ty, c: ExprCode, r: nat, slots: Regs, k: Core, i: int)
    requires Computes(c, r, slots, k, PatOf(t, i)) && Size(t) <= 8
    ensures Computes(Widen(t, c), r, slots, k, WidePat(t, i))
  {
    if Size(t) < 8 {
      var op := if IsSigned(t) then ISExt(c.next, Width(t), 64, c.res) else IZExt(c.next, Width(t), 64, c.res);
      ComputesThen(c, r, slots, k, PatOf(t, i), op, WidePat(t, i));
    }
  }

  /** The main result on expressions: wherever the code of a tree runs with its leaves still in
      their registers, it computes the tree's value and disturbs nothing that existed before. */
  lemma {:induction false} EmittedComputes(e: Expr, vals: seq<Value>, env: Env, r: nat, slots: Regs, k: Core)
    requires ValsMatch(vals, env, k.regs, r) && Eval(e, env).Some?
    ensures InRange(TypeOf(e), Eval(e, env).value)
    ensures Computes(Emitted(e, vals, r), r, slots, k, PatOf(TypeOf(e), Eval(e, env).value))
    decreases e, 3
  {
    match e
    case Val(i, ty) =>
      assert ValMatch(vals[i], env[i], k.regs, r);
      OpKept(vals[i].op, k.regs, k.regs, r, slots);
    case Lit(ty, n) =>
    case Arith(op, l, rh) => ArithComputes(e, op, l, rh, vals, env, r, slots, k);
    case Rel(op, l, rh) => RelComputes(e, op, l, rh, vals, env, r, slots, k);
    case PtrArith(minus, l, rh) => PointerCase(e, minus, l, rh, vals, env, r, slots, k);
    case Cast(to, e1) =>
      EmittedComputes(e1, vals, env, r, slots, k);
      CastComputes(TypeOf(e1), to, Emitted(e1, vals, r), r, slots, k, Eval(e1, env).value);
    case BitCast(to, e1) =>
      EmittedComputes(e1, vals, env, r, slots, k);
      BitCastComputes(TypeOf(e1), to, Emitted(e1, vals, r), r, slots, k, PatOf(TypeOf(e1), Eval(e1, env).value));
  }

  lemma CastComputes(from: Ty, to: Ty, c: ExprCode, r: nat, slots: Regs, k: Core, x: int)
    requires IsIntegral(from) && IsIntegral(to) && InRange(from, x)
    requires Computes(c, r, slots, k, PatOf(from, x))
    ensures InRange(to, Norm(to, x))
    ensures Computes(Convert(from, to, c), r, slots, k, PatOf(to, Norm(to, x)))
  {
    ConvertComputes(from, to, c, r, slots, k, PatOf(from, x));
    ConvertedCorrect(from, to, x);
    NormProps(to, x);
  }

  lemma BitCastComputes(from: Ty, to: Ty, c: ExprCode, r: nat, slots: Regs, k: Core, p: nat)
    requires BitCastOk(from, to) && p < Pow2(Width(from))
    requires Computes(c, r, slots, k, p)
    ensures InRange(to, ValOf(to, p))
    ensures Computes(ConvertBits(from, to, c), r, slots, k, PatOf(to, ValOf(to, p)))
  {
    ValInRange(to, p);
    if !SameLlvm(from, to) {
      var op := IBitCast(c.next, c.res);
      assert StepOp(op, slots, After(c.ops, slots, k)) == SetReg(After(c.ops, slots, k), c.next, Some(p));
      ComputesThen(c, r, slots, k, p, op, p);
    }
  }

  lemma {:induction false} ArithComputes(
      e: Expr, op: ArithOp, l: Expr, rh: Expr, vals: seq<Value>, env: Env, r: nat, slots: Regs, k: Core)
    requires e == Arith(op, l, rh)
    requires ValsMatch(vals, env, k.regs, r) && Eval(e, env).Some?
    ensures InRange(TypeOf(e), Eval(e, env).value)
    ensures Computes(Emitted(e, vals, r), r, slots, k, PatOf(TypeOf(e), Eval(e, env).value))
    decreases e, 1
  {
    var t, x, y := TypeOf(l), Eval(l, env).value, Eval(rh, env).value;
    var a, b := PairComputes(e, l, rh, vals, env, r, slots, k);
    SelectArithCorrect(op, t, x, y);
    ComputesThen(ExprCode(a.ops + b.ops, b.res, b.next), r, slots, k, PatOf(t, y),
                 IBin(b.next, SelectArith(op, t), Width(t), a.res, b.res), PatOf(t, Arithmetic(op, t, x, y).value));
  }

  lemma {:induction false} RelComputes(
      e: Expr, op: RelOp, l: Expr, rh: Expr, vals: seq<Value>, env: Env, r: nat, slots: Regs, k: Core)
    requires e == Rel(op, l, rh)
    requires ValsMatch(vals, env, k.regs, r) && Eval(e, env).Some?
    ensures InRange(TypeOf(e), Eval(e, env).value)
    ensures Computes(Emitted(e, vals, r), r, slots, k, PatOf(TypeOf(e), Eval(e, env).value))
    decreases e, 1
  {
    hide ValsMatch;
    var t, x, y := TypeOf(l), Eval(l, env).value, Eval(rh, env).value;
    var a, b := PairComputes(e, l, rh, vals, env, r, slots, k);
    SelectRelCorrect(op, t, x, y);
    var v := if Relation(op, x, y) then 1 else 0;
    BoolPattern(v);
    assert Eval(e, env) == Some(v);
    var icmp := ICmp(b.next, SelectRel(op, t), Width(t), a.res, b.res);
    var ab := ExprCode(a.ops + b.ops, b.res, b.next);
    assert StepOp(icmp, slots, After(ab.ops, slots, k)) == SetReg(After(ab.ops, slots, k), b.next, Some(v));
    ComputesThen(ab, r, slots, k, PatOf(t, y), icmp, v);
  }

  lemma BoolPattern(v: int)
    requires v == 0 || v == 1
    ensures InRange(TBool, v) && PatOf(TBool, v) == v
  {
    assert Pow2(1) == 2;
  }

  lemma {:induction false} PairComputes(
      e: Expr, l: Expr, rh: Expr, vals: seq<Value>, env: Env, r: nat, slots: Regs, k: Core)
    returns (a: ExprCode, b: ExprCode)
    requires l < e && rh < e
    requires ValsMatch(vals, env, k.regs, r) && Eval(l, env).Some? && Eval(rh, env).Some?
    ensures a == Emitted(l, vals, r) && b == Emitted(rh, vals, a.next)
    ensures InRange(TypeOf(l), Eval(l, env).value) && InRange(TypeOf(rh), Eval(rh, env).value)
    ensures Computes(ExprCode(a.ops + b.ops, b.res, b.next), r, slots, k, PatOf(TypeOf(rh), Eval(rh, env).value))
    ensures OpVal(a.res, After(a.ops + b.ops, slots, k).regs, slots) == Some(PatOf(TypeOf(l), Eval(l, env).value))
    decreases e, 0
  {
    a := Emitted(l, vals, r);
    b := Emitted(rh, vals, a.next);
    EmittedComputes(l, vals, env, r, slots, k);
    var k1 := After(a.ops, slots, k);
    ValsKept(vals, env, k.regs, k1.regs, r, a.next);
    EmittedComputes(rh, vals, env, a.next, slots, k1);
    ComputesTwo(a, b, r, slots, k, PatOf(TypeOf(l), Eval(l, env).value), PatOf(TypeOf(rh), Eval(rh, env).value));
  }

  /** Pointer arithmetic evaluates and widens the offset first, then the base. */
  lemma {:induction false} OffsetThenBase(
      e: Expr, l: Expr, rh: Expr, vals: seq<Value>, env: Env, r: nat, slots: Regs, k: Core)
    returns (b: ExprCode, a: ExprCode)
    requires l < e && rh < e
    requires ValsMatch(vals, env, k.regs, r) && Eval(l, env).Some? && Eval(rh, env).Some? && Size(TypeOf(rh)) <= 8
    ensures b == Widen(TypeOf(rh), Emitted(rh, vals, r)) && a == Emitted(l, vals, b.next)
    ensures InRange(TypeOf(l), Eval(l, env).value) && InRange(TypeOf(rh), Eval(rh, env).value)
    ensures Computes(ExprCode(b.ops + a.ops, a.res, a.next), r, slots, k, PatOf(TypeOf(l), Eval(l, env).value))
    ensures OpVal(b.res, After(b.ops + a.ops, slots, k).regs, slots) == Some(WidePat(TypeOf(rh), Eval(rh, env).value))
    decreases e, 0
  {
    var p, i, t := Eval(l, env).value, Eval(rh, env).value, TypeOf(rh);
    EmittedComputes(rh, vals, env, r, slots, k);
    WidenComputes(t, Emitted(rh, vals, r), r, slots, k, i);
    b := Widen(t, Emitted(rh, vals, r));
    a := Emitted(l, vals, b.next);
    var k1 := After(b.ops, slots, k);
    ValsKept(vals, env, k.regs, k1.regs, r, b.next);
    EmittedComputes(l, vals, env, b.next, slots, k1);
    ComputesTwo(b, a, r, slots, k, WidePat(t, i), PatOf(TypeOf(l), p));
  }

  lemma {:induction false} PointerCase(
      e: Expr, minus: bool, l: Expr, rh: Expr, vals: seq<Value>, env: Env, r: nat, slots: Regs, k: Core)
    requires e == PtrArith(minus, l, rh)
    requires ValsMatch(vals, env, k.regs, r) && Eval(e, env).Some?
    ensures InRange(TypeOf(e), Eval(e, env).value)
    ensures Computes(Emitted(e, vals, r), r, slots, k, PatOf(TypeOf(e), Eval(e, env).value))
    decreases e, 2
  {
    PointerValue(minus, l, rh, env);
    var v := Eval(e, env).value;
    PointerPattern(TypeOf(e), v);
    assert Computes(Emitted(e, vals, r), r, slots, k, v) by {
      PointerComputes(e, minus, l, rh, vals, env, r, slots, k, Eval(l, env).value, Eval(rh, env).value);
    }
  }

  lemma {:induction false} PointerComputes(
      e: Expr, minus: bool, l: Expr, rh: Expr, vals: seq<Value>, env: Env, r: nat, slots: Regs, k: Core, p: int, i: int)
    requires e == PtrArith(minus, l, rh) && Eval(l, env) == Some(p) && Eval(rh, env) == Some(i)
    requires TypeOf(l).TPtr? && IsIntegral(TypeOf(rh)) && Size(TypeOf(rh)) <= 8
    requires ValsMatch(vals, env, k.regs, r)
    ensures Computes(Emitted(e, vals, r), r, slots, k, Advance(minus, p, i, Size(Pointee(TypeOf(l)))))
    decreases e, 1
  {
    var b, a := OffsetThenBase(e, l, rh, vals, env, r, slots, k);
    PointerPattern(TypeOf(l), p);
    AddressComputes(minus, Size(Pointee(TypeOf(l))), b, a, r, slots, k, TypeOf(rh), p, i);
  }

  lemma AddressComputes(minus: bool, scale: nat, b: ExprCode, a: ExprCode, r: nat, slots: Regs, k: Core, t: Ty, p: nat,
      i: int)
    requires IsIntegral(t) && InRange(t, i) && Size(t) <= 8
    requires Computes(ExprCode(b.ops + a.ops, a.res, a.next), r, slots, k, p)
    requires OpVal(b.res, After(b.ops + a.ops, slots, k).regs, slots) == Some(WidePat(t, i))
    ensures Computes(Addressed(minus, scale, b, a), r, slots, k, Advance(minus, p, i, scale))
  {
    var ba := ExprCode(b.ops + a.ops, a.res, a.next);
    OffsetCorrect(t, p, i, scale);
    if minus {
      BackStep(ba, b.res, scale, r, slots, k, p, WidePat(t, i));
    } else {
      AddressStep(ba, b.res, scale, r, slots, k, p, WidePat(t, i));
    }
  }

  lemma PointerValue(minus: bool, l: Expr, rh: Expr, env: Env)
    requires Eval(PtrArith(minus, l, rh), env).Some?
    ensures Eval(l, env).Some? && Eval(rh, env).Some?
    ensures TypeOf(l).TPtr? && IsIntegral(TypeOf(rh)) && Size(TypeOf(rh)) <= 8
    ensures Eval(PtrArith(minus, l, rh), env) ==
            Some(Advance(minus, Eval(l, env).value, Eval(rh, env).value, Size(Pointee(TypeOf(l)))))
    ensures InRange(TypeOf(l), Eval(PtrArith(minus, l, rh), env).value)
  {}

  lemma PointerPattern(t: Ty, p: int)
    requires t.TPtr? && InRange(t, p)
    ensures p >= 0 && PatOf(t, p) == p
  {
    ModSmall(p, Pow2(64));
  }

  /** The tail of pointer arithmetic, once base and widened offset are in registers. */
  lemma AddressStep(ba: ExprCode, off: Operand, scale: nat, r: nat, slots: Regs, k: Core, p: nat, n: nat)
    requires Computes(ba, r, slots, k, p)
    requires OpVal(off, After(ba.ops, slots, k).regs, slots) == Some(n)
    ensures Computes(ExprCode(ba.ops + [IGep(ba.next, scale, ba.res, off)], Reg(ba.next), ba.next + 1),
                     r, slots, k, ElementAddress(p, n, scale))
  {
    var k1, gep := After(ba.ops, slots, k), IGep(ba.next, scale, ba.res, off);
    assert StepOp(gep, slots, k1) == SetReg(k1, ba.next, Some(ElementAddress(p, n, scale)));
    ComputesThen(ba, r, slots, k, p, gep, ElementAddress(p, n, scale));
  }

  /** The negated offset beside the base. */
  lemma NegateStep(ba: ExprCode, off: Operand, r: nat, slots: Regs, k: Core, p: nat, n: nat)
    requires Computes(ba, r, slots, k, p)
    requires OpVal(off, After(ba.ops, slots, k).regs, slots) == Some(n)
    ensures var c, q := ExprCode(ba.ops + [IBin(ba.next, Sub, 64, Const(0), off)], Reg(ba.next), ba.next + 1),
            Pat(64, 0 - n);
            Computes(c, r, slots, k, q) && OpVal(ba.res, After(c.ops, slots, k).regs, slots) == Some(p) &&
            OpVal(Reg(ba.next), After(c.ops, slots, k).regs, slots) == Some(q)
  {
    hide Pat;
    var k1, sub, q := After(ba.ops, slots, k), IBin(ba.next, Sub, 64, Const(0), off), Pat(64, 0 - n);
    assert StepOp(sub, slots, k1) == SetReg(k1, ba.next, Some(q));
    ComputesThen(ba, r, slots, k, p, sub, q);
  }

  lemma BackStep(ba: ExprCode, off: Operand, scale: nat, r: nat, slots: Regs, k: Core, p: nat, n: nat)
    requires Computes(ba, r, slots, k, p)
    requires OpVal(off, After(ba.ops, slots, k).regs, slots) == Some(n)
    ensures Computes(ExprCode(ba.ops + [IBin(ba.next, Sub, 64, Const(0), off),
            IGep(ba.next + 1, scale, ba.res, Reg(ba.next))],
                              Reg(ba.next + 1), ba.next + 2),
                     r, slots, k, ElementAddress(p, Pat(64, 0 - n), scale))
  {
    hide ElementAddress, Pat, RunOps, Computes, After;
    var sub, q := IBin(ba.next, Sub, 64, Const(0), off), Pat(64, 0 - n);
    NegateStep(ba, off, r, slots, k, p, n);
    var c := ExprCode(ba.ops + [sub], Reg(ba.next), ba.next + 1);
    var k2 := After(c.ops, slots, k);
    var gep := IGep(ba.next + 1, scale, ba.res, Reg(ba.next));
    assert StepOp(gep, slots, k2) == SetReg(k2, ba.next + 1, Some(ElementAddress(p, q, scale)));
    ComputesThen(c, r, slots, k, q, gep, ElementAddress(p, q, scale));
    assert c.ops + [gep] == ba.ops + [sub, gep];
  }
}
