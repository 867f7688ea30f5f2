/** Algebra that users of the generated arithmetic may rely on, at every width. */
module Laws {
  import opened Bits
  import opened Types
  import opened Source
  import opened Ir
  import opened Lowering
  import opened Expressions

  // ----- division and remainder -----

  /** On bit patterns, with the instructions the operators select: quotient and remainder are
      defined together, and (x / y) * y + x % y is x again, wrap-around included. */
  lemma DivisionIdentity(t: Ty, a: nat, b: nat)
    requires IsIntegral(t) && a < Pow2(Width(t)) && b < Pow2(Width(t))
    ensures var w := Width(t);
            var q, r := EvalBin(SelectArith(DivOp, t), w, a, b), EvalBin(SelectArith(ModOp, t), w, a, b);
            (q.Some? <==> r.Some?) &&
            (q.Some? ==> EvalBin(Add, w, EvalBin(Mul, w, q.value, b).value, r.value) == Some(a))
  {
    var x, y, m := ValOf(t, a), ValOf(t, b), Pow2(Width(t));
    ValInRange(t, a);
    ValInRange(t, b);
    DivisionCorrect(t, x, y);
    if y != 0 && InRange(t, TDiv(x, y)) {
      var q, r := TDiv(x, y), TRem(x, y);
      TDivRem(x, y);
      ModMul(q, y, m);
      ModAdd(q * y, r, m);
      assert (q * y + r) % m == x % m == a;
    }
  }

  /** The remainder is smaller than the divisor and takes the dividend's sign; it is never negative
      on unsigned operands. */
  lemma RemainderLaw(t: Ty, x: int, y: int)
    requires IsIntegral(t) && InRange(t, x) && InRange(t, y) && Arithmetic(ModOp, t, x, y).Some?
    ensures var r := Arithmetic(ModOp, t, x, y).value;
            InRange(t, r) && Abs(r) < Abs(y) && (r < 0 ==> x < 0) && (r > 0 ==> x > 0)
  {
    DivisionCorrect(t, x, y);
    TDivRem(x, y);
    if x == 0 {
      assert Abs(x) % Abs(y) == 0;
    }
  }

  // ----- casts -----

  lemma ModChain(v: nat, w: nat, x: int)
    requires v <= w
    ensures (x % Pow2(w)) % Pow2(v) == x % Pow2(v)
  {
    Pow2Add(v, w - v);
    ModMod(x, Pow2(v), Pow2(w - v));
  }

  lemma NormMod(t: Ty, x: int, v: nat)
    requires !t.TVoid? && v <= Width(t)
    ensures Norm(t, x) % Pow2(v) == x % Pow2(v)
  {
    NormProps(t, x);
    ModChain(v, Width(t), x);
    ModChain(v, Width(t), Norm(t, x));
  }

  /** A cast through a type at least as wide as the last one does not matter. */
  lemma CastCollapse(mid: Ty, to: Ty, x: int)
    requires IsIntegral(mid) && IsIntegral(to) && Width(to) <= Width(mid)
    ensures Norm(to, Norm(mid, x)) == Norm(to, x)
  {
    NormMod(mid, x, Width(to));
  }

  /** Widening and narrowing back is the identity, whatever the signs on the way. */
  lemma WidenNarrow(from: Ty, mid: Ty, x: int)
    requires IsIntegral(from) && IsIntegral(mid) && Width(from) <= Width(mid) && InRange(from, x)
    ensures Norm(from, Norm(mid, x)) == x
  {
    CastCollapse(mid, from, x);
    PatVal(from, x);
  }

  /** A cast keeps the value exactly when the target type has it. */
  lemma CastKeepsIff(to: Ty, x: int)
    requires IsIntegral(to)
    ensures Norm(to, x) == x <==> InRange(to, x)
  {
    NormProps(to, x);
    if InRange(to, x) {
      PatVal(to, x);
    }
  }

  /** Narrowing through a type too narrow loses the difference: the side condition of
      CastCollapse cannot be dropped. */
  lemma CollapseNeedsWidth(mid: Ty, to: Ty)
    requires IsIntegral(mid) && IsIntegral(to) && Width(mid) < Width(to)
    ensures Norm(to, Norm(mid, Pow2(Width(mid)))) != Norm(to, Pow2(Width(mid)))
  {
    var w, v := Width(mid), Width(to);
    assert Pow2(w) % Pow2(w) == 0;
    NormProps(mid, Pow2(w));
    NormProps(mid, 0);
    NormProps(to, 0);
    NormProps(to, Pow2(w));
    Pow2Mono(w + 1, v);
    ModSmall(Pow2(w), Pow2(v));
    ModSmall(0, Pow2(v));
    ModSmall(0, Pow2(w));
  }

  /** bool is one bit wide, so a cast to bool keeps the low bit; it agrees with C++'s test for
      non-zero on 0 and on odd numbers only. */
  lemma BoolCast(x: int)
    ensures Norm(TBool, x) == x % 2
    ensures Norm(TBool, x) == (if x != 0 then 1 else 0) <==> x == 0 || x % 2 == 1
  {
    assert Pow2(1) == 2;
  }

  // ----- pointers -----

  lemma ScaledSum(i: int, j: int, n: nat)
    ensures Scaled(i + j, n) == Scaled(i, n) + Scaled(j, n)
  {
    ScaledIsProduct(i + j, n);
    ScaledIsProduct(i, n);
    ScaledIsProduct(j, n);
    assert (i + j) * n == i * n + j * n;
  }

  /** Two offsets add up at 64 bits, however narrow the types they came from. */
  lemma AdvanceTwice(p: int, i: int, j: int, size: nat)
    ensures Advance(false, Advance(false, p, i, size), j, size) == Advance(false, p, i + j, size)
    ensures Advance(true, Advance(false, p, i, size), j, size) == Advance(false, p, i - j, size)
  {
    var m := Pow2(64);
    ScaledSum(i, j, size);
    ScaledSum(i, -j, size);
    ModAdd(p + Scaled(i, size), Scaled(j, size), m);
    ModAdd((p + Scaled(i, size)) % m, Scaled(j, size), m);
    ModAdd(p + Scaled(i, size), Scaled(-j, size), m);
    ModAdd((p + Scaled(i, size)) % m, Scaled(-j, size), m);
    ModMod(p + Scaled(i, size), m, 1);
  }

  /** (p + i) - i == p, for every offset of every type. */
  lemma ThereAndBack(l: Expr, i: Expr, env: Env)
    requires Eval(PtrArith(false, l, i), env).Some? && InRange(TypeOf(l), Eval(l, env).value)
    ensures Eval(PtrArith(true, PtrArith(false, l, i), i), env) == Eval(l, env)
  {
    var p, d, size := Eval(l, env).value, Eval(i, env).value, Size(Pointee(TypeOf(l)));
    AdvanceTwice(p, d, d, size);
    ScaledIsProduct(0, size);
    ModSmall(p, Pow2(64));
  }

  /** (p + i) + j and p + (i + j) agree exactly when i + j does not wrap, or the wrap itself is a
      multiple of 2^64 bytes. */
  lemma ReassociateIff(l: Expr, i: Expr, j: Expr, env: Env)
    requires Eval(PtrArith(false, l, i), env).Some? && Eval(j, env).Some? && TypeOf(j) == TypeOf(i)
    requires InRange(TypeOf(i), Eval(i, env).value) && InRange(TypeOf(i), Eval(j, env).value)
    ensures var t, size := TypeOf(i), Size(Pointee(TypeOf(l)));
            Eval(PtrArith(false, PtrArith(false, l, i), j), env) == Eval(PtrArith(false, l, Arith(PlusOp, i, j)),
              env) <==>
            InRange(t, Eval(i, env).value + Eval(j, env).value) || Scaled(Pow2(Width(t)), size) % Pow2(64) == 0
  {
    hide Advance, Norm, InRange, Scaled, Pow2, Eval, IsIntegral, Width, Size;
    Sums(l, i, j, env);
    var t, size := TypeOf(i), Size(Pointee(TypeOf(l)));
    var p, x, y := Eval(l, env).value, Eval(i, env).value, Eval(j, env).value;
    AdvanceTwice(p, x, y, size);
    var k := WrapAmount(t, x, y);
    SameAddress(p, x + y, Norm(t, x + y), k, Pow2(Width(t)), size);
  }

  lemma Sums(l: Expr, i: Expr, j: Expr, env: Env)
    requires Eval(PtrArith(false, l, i), env).Some? && Eval(j, env).Some? && TypeOf(j) == TypeOf(i)
    ensures Eval(l, env).Some? && Eval(i, env).Some? && IsIntegral(TypeOf(i))
    ensures var p, x, y, size := Eval(l, env).value, Eval(i, env).value, Eval(j, env).value, Size(Pointee(TypeOf(l)));
            Eval(PtrArith(false, PtrArith(false, l, i), j), env) ==
              Some(Advance(false, Advance(false, p, x, size), y, size)) &&
            Eval(PtrArith(false, l, Arith(PlusOp, i, j)), env) == Some(Advance(false, p, Norm(TypeOf(i), x + y), size))
  {
    hide Advance, Norm, Width, Size, Pow2, InRange;
    EvalAdvance(l, i, env);
    EvalPlus(i, j, env);
    EvalAdvance(PtrArith(false, l, i), j, env);
    EvalAdvance(l, Arith(PlusOp, i, j), env);
  }

  lemma EvalAdvance(l: Expr, i: Expr, env: Env)
    ensures Eval(PtrArith(false, l, i), env).Some? <==>
            Eval(l, env).Some? && Eval(i, env).Some? && TypeOf(l).TPtr? && IsIntegral(TypeOf(i)) && Size(TypeOf(i)) <= 8
    ensures Eval(PtrArith(false, l, i), env).Some? ==>
            Eval(PtrArith(false, l, i), env) ==
            Some(Advance(false, Eval(l, env).value, Eval(i, env).value, Size(Pointee(TypeOf(l)))))
  {
    hide Advance, Norm, Width, Size, Pow2, InRange;
  }

  lemma EvalPlus(i: Expr, j: Expr, env: Env)
    requires Eval(i, env).Some? && Eval(j, env).Some? && TypeOf(j) == TypeOf(i) && IsIntegral(TypeOf(i))
    ensures Eval(Arith(PlusOp, i, j), env) == Some(Norm(TypeOf(i), Eval(i, env).value + Eval(j, env).value))
  {
    hide Norm, Width, Size, Pow2, InRange;
  }

  function Signs(k: int, d: int): int { if k > 0 then d else if k < 0 then -d else 0 }

  /** A sum of two values of an integer type wraps at most once, in either direction. */
  lemma WrapAmount(t: Ty, x: int, y: int) returns (k: int)
    requires IsIntegral(t) && InRange(t, x) && InRange(t, y)
    ensures -1 <= k <= 1 && x + y == Norm(t, x + y) + Signs(k, Pow2(Width(t)))
    ensures k == 0 <==> InRange(t, x + y)
  {
    var w, s := Width(t), x + y;
    assert Pow2(w) == 2 * Pow2(w - 1);
    NormProps(t, s);
    k := if InRange(t, s) then 0 else if s > 0 then 1 else -1;
    var z := s - k * Pow2(w);
    assert InRange(t, z);
    ModEq(s, z, k, Pow2(w));
    PatInjective(t, z, Norm(t, s));
  }

  lemma SameAddress(p: int, a: int, b: int, k: int, step: nat, size: nat)
    requires -1 <= k <= 1 && a == b + Signs(k, step)
    ensures Advance(false, p, a, size) == Advance(false, p, b, size) <==> k == 0 || Scaled(step, size) % Pow2(64) == 0
  {
    hide Scaled, Pow2;
    var m := Pow2(64);
    ScaledSum(b, Signs(k, step), size);
    ScaledNeg(step, size);
    ScaledIsProduct(0, size);
    var c, d := p + Scaled(b, size), Scaled(Signs(k, step), size);
    AddKeepsIff(c, d, m);
    NegZero(Scaled(step, size), m);
  }

  lemma ScaledNeg(i: int, n: nat)
    ensures Scaled(-i, n) == -Scaled(i, n)
  {
    ScaledSum(i, -i, n);
    ScaledIsProduct(0, n);
  }

  lemma AddKeepsIff(c: int, d: int, m: int)
    requires m > 0
    ensures (c + d) % m == c % m <==> d % m == 0
  {
    ModSub(c + d, c, m);
    if d % m == 0 {
      assert d == (d / m) * m;
      ModEq(c + d, c, d / m, m);
    }
    ModSmall(0, m);
  }

  lemma NegZero(d: int, m: int)
    requires m > 0
    ensures (-d) % m == 0 <==> d % m == 0
  {
    AddKeepsIff(-d, d, m);
    AddKeepsIff(d, -d, m);
    ModSmall(0, m);
  }

  /** Bytes added as indices: 200 + 100 wraps to 44 before it is widened. */
  lemma NarrowSumWraps()
    ensures var b := i => Lit(TInt(1, false), i);
            var p := Lit(TPtr(TByte), 1000);
            Eval(PtrArith(false, PtrArith(false, p, b(200)), b(100)), []) == Some(1300) &&
            Eval(PtrArith(false, p, Arith(PlusOp, b(200), b(100))), []) == Some(1044)
  {
    hide Pow2;
    ByteRange(200);
    ByteRange(100);
    AddressRange(1000);
    AddressRange(1200);
    AddressRange(1300);
    AddressRange(1044);
  }

  lemma ByteRange(n: nat)
    requires n < 256
    ensures InRange(TInt(1, false), n) && Norm(TInt(1, false), 300) == 44
  {
    assert Pow2(8) == 256;
  }

  lemma AddressRange(n: nat)
    requires n < 2048
    ensures InRange(TPtr(TByte), n) && Pat(64, n) == n
  {
    Pow2Mono(11, 64);
    assert Pow2(11) == 2048;
    ModSmall(n, Pow2(64));
  }

  // ----- lazy expressions -----

  /** An expression over leaves read earlier keeps the value it had then: extending the scope, and
      any assignment or store in between, do not change it. */
  lemma {:induction false} EvalExtends(e: Expr, env: Env, env': Env)
    requires env <= env' && Eval(e, env).Some?
    ensures Eval(e, env') == Eval(e, env)
    decreases e
  {
    match e
    case Val(_, _) =>
    case Lit(_, _) =>
    case Arith(_, l, r) => EvalExtends(l, env, env'); EvalExtends(r, env, env');
    case PtrArith(_, l, r) => EvalExtends(l, env, env'); EvalExtends(r, env, env');
    case Rel(_, l, r) => EvalExtends(l, env, env'); EvalExtends(r, env, env');
    case Cast(_, e1) => EvalExtends(e1, env, env');
    case BitCast(_, e1) => EvalExtends(e1, env, env');
  }

  /** Straight-line statements between a read and a use. */
  ghost function DoAll(acts: seq<Action>, st: SState): Option<SState> {
    if acts == [] then Some(st)
    else match Do(acts[0], st)
      case None => None
      case Some(st1) => DoAll(acts[1..], st1)
  }

  /** A read after an assignment sees it; the value read before does not change. */
  lemma ReadThenSet(x: nat, e: Expr, st: SState)
    requires x < |st.vars| && st.vars[x].val.Some? && Do(Set(x, e), st).Some?
    ensures var before := SVal(st.vars[x].ty, st.vars[x].val.value);
            var acts := [ReadValue(RGet(x)), Set(x, e), ReadValue(RGet(x))];
            DoAll(acts, st).Some? &&
            DoAll(acts, st).value.env == st.env + [before, SVal(TypeOf(e), Eval(e, st.env).value)]
  {
    var st1 := Do(ReadValue(RGet(x)), st).value;
    EvalExtends(e, st.env, st1.env);
    var st2 := Do(Set(x, e), st1).value;
    var st3 := Do(ReadValue(RGet(x)), st2).value;
    var acts := [ReadValue(RGet(x)), Set(x, e), ReadValue(RGet(x))];
    assert acts[1..] == [Set(x, e), ReadValue(RGet(x))] && acts[1..][1..] == [ReadValue(RGet(x))];
    assert DoAll(acts[1..][1..][1..], st3) == Some(st3);
    assert DoAll(acts[1..][1..], st2) == Some(st3);
    assert DoAll(acts[1..], st1) == Some(st3);
  }
}
