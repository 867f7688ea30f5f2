/** Straight-line statements: running their code does to the machine what they do to the source state. */
module Actions {
  import opened Bits
  import opened Types
  import opened Memory
  import opened Source
  import opened Ir
  import opened Text
  import opened Lowering
  import opened Agreement
  import opened Expressions

  lemma PushVal(ls: Locals, v: Value, st: SState, s: SVal, regs: Regs, regs': Regs, nr: nat, nr1: nat)
    requires ValsMatch(ls.vals, st.env, regs, nr) && SameBelow(regs, regs', nr) && nr <= nr1
    requires ValMatch(v, s, regs', nr1)
    ensures ValsMatch(PushValue(ls, v).vals, st.env + [s], regs', nr1)
  {
    ValsKept(ls.vals, st.env, regs, regs', nr, nr1);
  }

  /** Register updates from nr on keep the whole match. */
  lemma StateKept(tys: seq<Ty>, ls: Locals, st: SState, nr: nat, nr1: nat, ns: nat, fr: Frame, fr': Frame, mem: Mem)
    requires StateMatch(tys, ls, st, nr, ns, fr, mem) && FrameKept(fr, fr', nr) && nr <= nr1
    ensures StateMatch(tys, ls, st, nr1, ns, fr', mem)
  {
    ValsKept(ls.vals, st.env, fr.regs, fr'.regs, nr, nr1);
  }

  lemma ResultAdvances(
      tys: seq<Ty>, ops: seq<Op>, ls: Locals, st: SState, v: Value, s: SVal, nr: nat, nr1: nat, ns: nat, fr: Frame,
      mem: Mem,
      regs': Regs)
    requires StateMatch(tys, ls, st, nr, ns, fr, mem)
    requires RunOps(ops, fr.slots, Core(fr.regs, mem)) == Some(Core(regs', mem))
    requires SameBelow(fr.regs, regs', nr) && nr <= nr1 && ValMatch(v, s, regs', nr1)
    ensures Advances(tys, ops, PushValue(ls, v), st, st.(env := st.env + [s]), nr, nr1, ns, fr, mem)
  {
    PushVal(ls, v, st, s, fr.regs, regs', nr, nr1);
  }

  lemma GetAdvances(x: nat, ls: Locals, st: SState, name: string, tys: seq<Ty>, nr: nat, ns: nat, fr: Frame, mem: Mem)
    requires StateMatch(tys, ls, st, nr, ns, fr, mem) && DoRead(RGet(x), st).Some?
    ensures var c := GetCode(x, ls, nr);
            Advances(tys, c.ops, PushValue(ls, Value(c.res, name)), st, DoRead(RGet(x), st).value,
              nr, c.next, ns, fr, mem)
  {
    var v := ls.vars[x];
    assert VarMatch(tys, ns, v, st.vars[x], fr.slots, mem);
    var p := PatOf(v.ty, st.vars[x].val.value);
    var op := ILoad(nr, v.ty, SlotPtr(v.slot));
    RunOne(op, fr.slots, Core(fr.regs, mem));
    ResultAdvances(tys, [op], ls, st, Value(Reg(nr), name), SVal(v.ty, st.vars[x].val.value), nr, nr + 1, ns, fr, mem,
                   fr.regs[nr := p]);
  }

  lemma LoadHeap(heap: Mem, mem: Mem, base: nat, a: nat, t: Ty)
    requires HeapMatch(heap, mem, base) && LoadTy(heap, a, t).Some?
    ensures LoadTy(mem, a, t) == LoadTy(heap, a, t)
  {
    ReadExtends(heap, mem, a, Size(t));
  }

  /** A load after the code of its address. */
  lemma LoadRuns(c: ExprCode, ty: Ty, r: nat, slots: Regs, k: Core, a: nat, pat: nat)
    requires Computes(c, r, slots, k, a) && LoadTy(k.mem, a, ty) == Some(pat)
    ensures var regs' := After(c.ops, slots, k).regs[c.next := pat];
            RunOps(c.ops + [ILoad(c.next, ty, c.res)], slots, k) == Some(Core(regs', k.mem)) &&
            SameBelow(k.regs, regs', r) && r <= c.next
  {
    hide LoadTy;
    var op, k1 := ILoad(c.next, ty, c.res), After(c.ops, slots, k);
    assert StepOp(op, slots, k1) == SetReg(k1, c.next, Some(pat));
    OneMore(c.ops, op, slots, k);
  }

  lemma LoadAdvances(p: Expr, ls: Locals, st: SState, name: string, tys: seq<Ty>, nr: nat, ns: nat, fr: Frame, mem: Mem)
    requires StateMatch(tys, ls, st, nr, ns, fr, mem) && DoRead(RLoad(p), st).Some?
    ensures var c := LoadCode(p, ls, nr);
            Advances(tys, c.ops, PushValue(ls, Value(c.res, name)), st, DoRead(RLoad(p), st).value,
              nr, c.next, ns, fr, mem)
  {
    hide Emitted, ValsMatch, VarsMatch, FrameOk, LoadTy, Computes, RunOps, SameBelow, Advances, PushValue;
    var ty, a := Pointee(TypeOf(p)), Eval(p, st.env).value;
    var c := Emitted(p, ls.vals, nr);
    EmittedComputes(p, ls.vals, st.env, nr, fr.slots, Core(fr.regs, mem));
    PointerPattern(TypeOf(p), a);
    LoadHeap(st.heap, mem, fr.base, a, ty);
    var pat := LoadTy(st.heap, a, ty).value;
    LoadBound(st.heap, a, ty);
    ValInRange(ty, pat);
    LoadRuns(c, ty, nr, fr.slots, Core(fr.regs, mem), a, pat);
    ResultAdvances(tys, c.ops + [ILoad(c.next, ty, c.res)], ls, st, Value(Reg(c.next), name), SVal(ty, ValOf(ty, pat)),
                   nr, c.next + 1, ns, fr, mem, After(c.ops, fr.slots, Core(fr.regs, mem)).regs[c.next := pat]);
  }

  lemma LoadBound(m: Mem, a: nat, t: Ty)
    requires LoadTy(m, a, t).Some?
    ensures LoadTy(m, a, t).value < Pow2(Width(t))
  {}

  lemma ReadAdvances(rd: Read, ls: Locals, st: SState, name: string, tys: seq<Ty>, nr: nat, ns: nat, fr: Frame,
      mem: Mem)
    requires StateMatch(tys, ls, st, nr, ns, fr, mem) && DoRead(rd, st).Some?
    ensures var c := ReadCode(rd, ls, nr);
            Advances(tys, c.ops, PushValue(ls, Value(c.res, name)), st, DoRead(rd, st).value, nr, c.next, ns, fr, mem)
  {
    match rd
    case RGet(x) => GetAdvances(x, ls, st, name, tys, nr, ns, fr, mem);
    case RLoad(p) => LoadAdvances(p, ls, st, name, tys, nr, ns, fr, mem);
  }

  lemma OneMore(ops: seq<Op>, op: Op, slots: Regs, k: Core)
    requires RunOps(ops, slots, k).Some? && IsStraight(op)
    ensures RunOps(ops + [op], slots, k) == StepOp(op, slots, After(ops, slots, k))
  {
    RunOpsAppend(ops, [op], slots, k);
    RunOne(op, slots, After(ops, slots, k));
  }

  // ----- assignments -----

  /** Writing one variable's alloca disturbs no other variable. */
  lemma VarsAfterSet(
      tys: seq<Ty>, ns: nat, vars: seq<Variable>, cells: seq<Cell>, slots: Regs, base: nat, sp: nat, mem: Mem, x: nat,
      v: int)
    requires VarsMatch(tys, ns, vars, cells, slots, mem) && FrameOk(tys, slots, base, sp, mem)
    requires x < |vars| && InRange(vars[x].ty, v)
    ensures var t, a := vars[x].ty, slots[vars[x].slot];
            var mem' := WriteLE(mem, a, Size(t), PatOf(t, v));
            Mapped(mem, a, Size(t)) && mem'.Keys == mem.Keys &&
            VarsMatch(tys, ns, vars, cells[x := Cell(t, Some(v))], slots, mem')
  {
    assert VarMatch(tys, ns, vars[x], cells[x], slots, mem);
    var t, s, a := vars[x].ty, vars[x].slot, slots[vars[x].slot];
    assert SlotOk(tys[s], s, slots, base, sp, mem);
    var mem' := WriteLE(mem, a, Size(t), PatOf(t, v));
    WriteDomain(mem, a, Size(t), PatOf(t, v));
    LoadStore(mem, a, t, PatOf(t, v));
    var cells' := cells[x := Cell(t, Some(v))];
    forall i | 0 <= i < |vars|
      ensures VarMatch(tys, ns, vars[i], cells'[i], slots, mem')
    {
      assert VarMatch(tys, ns, vars[i], cells[i], slots, mem);
      if i != x {
        var s', t' := vars[i].slot, vars[i].ty;
        assert if s' < s then Apart(slots, s', tys[s'], s, tys[s]) else Apart(slots, s, tys[s], s', tys[s']);
        ReadAgree(mem, mem', slots[s'], Size(t'));
      }
    }
  }

  lemma FrameAfterWrite(tys: seq<Ty>, slots: Regs, base: nat, sp: nat, mem: Mem, mem': Mem)
    requires FrameOk(tys, slots, base, sp, mem) && forall a :: a in mem ==> a in mem'
    ensures FrameOk(tys, slots, base, sp, mem')
  {
    forall k | 0 <= k < |tys|
      ensures SlotOk(tys[k], k, slots, base, sp, mem')
    {
      assert SlotOk(tys[k], k, slots, base, sp, mem);
    }
  }

  lemma SetAdvances(x: nat, e: Expr, ls: Locals, st: SState, tys: seq<Ty>, nr: nat, ns: nat, fr: Frame, mem: Mem)
    requires StateMatch(tys, ls, st, nr, ns, fr, mem) && Do(Set(x, e), st).Some?
    ensures var c := ActionCode(Set(x, e), ls, nr);
            Advances(tys, c.ops, ls, st, Do(Set(x, e), st).value, nr, c.next, ns, fr, mem)
  {
    hide ValsMatch, VarMatch, Computes, InRange, Eval, Emitted;
    var k, v, c := Core(fr.regs, mem), Eval(e, st.env).value, Emitted(e, ls.vals, nr);
    EmittedComputes(e, ls.vals, st.env, nr, fr.slots, k);
    assert VarMatch(tys, ns, ls.vars[x], st.vars[x], fr.slots, mem);
    SlotOwned(tys, ns, ls.vars[x], st.vars[x], fr, mem);
    VarsAfterSet(tys, ns, ls.vars, st.vars, fr.slots, fr.base, fr.sp, mem, x, v);
    SetStep(x, v, c, ls, st, tys, nr, ns, fr, mem);
  }

  lemma SlotOwned(tys: seq<Ty>, ns: nat, v: Variable, c: Cell, fr: Frame, mem: Mem)
    requires VarMatch(tys, ns, v, c, fr.slots, mem) && FrameOk(tys, fr.slots, fr.base, fr.sp, mem)
    ensures v.slot in fr.slots && v.ty == c.ty && fr.base <= fr.slots[v.slot] &&
            Mapped(mem, fr.slots[v.slot], Size(v.ty))
  {
    assert SlotOk(tys[v.slot], v.slot, fr.slots, fr.base, fr.sp, mem);
  }

  /** The store itself, its value computed. */
  lemma SetStep(x: nat, v: int, c: ExprCode, ls: Locals, st: SState, tys: seq<Ty>, nr: nat, ns: nat, fr: Frame,
      mem: Mem)
    requires StateMatch(tys, ls, st, nr, ns, fr, mem) && x < |ls.vars| == |st.vars| && ls.vars[x].slot in fr.slots
    requires var t, a := ls.vars[x].ty, fr.slots[ls.vars[x].slot];
             var mem' := WriteLE(mem, a, Size(t), PatOf(t, v));
             fr.base <= a && Mapped(mem, a, Size(t)) && mem'.Keys == mem.Keys &&
             Computes(c, nr, fr.slots, Core(fr.regs, mem), PatOf(t, v)) &&
             VarsMatch(tys, ns, ls.vars, st.vars[x := Cell(t, Some(v))], fr.slots, mem')
    ensures var t := ls.vars[x].ty;
            Advances(tys, c.ops + [IStore(t, c.res, SlotPtr(ls.vars[x].slot))], ls, st,
              st.(vars := st.vars[x := Cell(t, Some(v))]),
                     nr, c.next, ns, fr, mem)
  {
    hide ValsMatch, VarsMatch, FrameOk, InRange, PatOf, Mapped;
    var t, s := ls.vars[x].ty, ls.vars[x].slot;
    var a, k1 := fr.slots[s], After(c.ops, fr.slots, Core(fr.regs, mem));
    var mem' := WriteLE(mem, a, Size(t), PatOf(t, v));
    WriteDomain(mem, a, Size(t), PatOf(t, v));
    var op := IStore(t, c.res, SlotPtr(s));
    assert StepOp(op, fr.slots, k1) == Some(Core(k1.regs, mem'));
    OneMore(c.ops, op, fr.slots, Core(fr.regs, mem));
    ValsKept(ls.vals, st.env, fr.regs, k1.regs, nr, c.next);
    FrameAfterWrite(tys, fr.slots, fr.base, fr.sp, mem, mem');
  }

  /** A store to the heap leaves every variable alone. */
  lemma VarsAfterStore(tys: seq<Ty>, ns: nat, vars: seq<Variable>, cells: seq<Cell>, slots: Regs, base: nat, sp: nat,
                       mem: Mem, mem': Mem)
    requires VarsMatch(tys, ns, vars, cells, slots, mem) && FrameOk(tys, slots, base, sp, mem)
    requires forall a :: a in mem ==> a in mem' && (base <= a < sp ==> mem'[a] == mem[a])
    ensures VarsMatch(tys, ns, vars, cells, slots, mem')
  {
    forall i | 0 <= i < |vars|
      ensures VarMatch(tys, ns, vars[i], cells[i], slots, mem')
    {
      assert VarMatch(tys, ns, vars[i], cells[i], slots, mem);
      var s, t := vars[i].slot, vars[i].ty;
      assert SlotOk(tys[s], s, slots, base, sp, mem);
      ReadAgree(mem, mem', slots[s], Size(t));
    }
  }

  lemma HeapAfterStore(heap: Mem, mem: Mem, base: nat, a: nat, n: nat, p: nat)
    requires HeapMatch(heap, mem, base) && Mapped(heap, a, n)
    ensures Mapped(mem, a, n) && HeapMatch(WriteLE(heap, a, n, p), WriteLE(mem, a, n, p), base)
    ensures WriteLE(heap, a, n, p).Keys == heap.Keys && WriteLE(mem, a, n, p).Keys == mem.Keys
    ensures forall i :: i in mem && i !in heap ==> WriteLE(mem, a, n, p)[i] == mem[i]
  {
    WriteDomain(heap, a, n, p);
    WriteDomain(mem, a, n, p);
    forall i | a <= i < a + n
      ensures WriteLE(heap, a, n, p)[i] == WriteLE(mem, a, n, p)[i]
    {
      WrittenByte(heap, mem, a, n, p, i);
    }
  }

  lemma {:induction false} WrittenByte(m: Mem, m': Mem, a: nat, n: nat, p: nat, i: nat)
    requires Mapped(m, a, n) && Mapped(m', a, n) && a <= i < a + n
    ensures i in WriteLE(m, a, n, p) && i in WriteLE(m', a, n, p) && WriteLE(m, a, n, p)[i] == WriteLE(m', a, n, p)[i]
    decreases n
  {
    var m1, m1' := m[a := p % 256], m'[a := p % 256];
    WriteDomain(m1, a + 1, n - 1, p / 256);
    WriteDomain(m1', a + 1, n - 1, p / 256);
    if i > a {
      WrittenByte(m1, m1', a + 1, n - 1, p / 256, i);
    }
  }

  lemma StoreAdvances(e: Expr, p: Expr, ls: Locals, st: SState, tys: seq<Ty>, nr: nat, ns: nat, fr: Frame, mem: Mem)
    requires StateMatch(tys, ls, st, nr, ns, fr, mem) && Do(Store(e, p), st).Some?
    ensures var c := ActionCode(Store(e, p), ls, nr);
            Advances(tys, c.ops, ls, st, Do(Store(e, p), st).value, nr, c.next, ns, fr, mem)
  {
    hide VarsMatch, ValsMatch, FrameOk, InRange, PatOf, Emitted, CompareBytes, Pow2, Width, OpVals, EvalArgs, ReadLE;
    var k, v, a, t := Core(fr.regs, mem), Eval(e, st.env).value, Eval(p, st.env).value, TypeOf(e);
    var c, d := PairComputes(PtrArith(false, e, p), e, p, ls.vals, st.env, nr, fr.slots, k);
    PointerPattern(TypeOf(p), a);
    HeapAfterStore(st.heap, mem, fr.base, a, Size(t), PatOf(t, v));
    var mem' := WriteLE(mem, a, Size(t), PatOf(t, v));
    var op, k1 := IStore(t, c.res, d.res), After(c.ops + d.ops, fr.slots, k);
    assert StepOp(op, fr.slots, k1) == Some(Core(k1.regs, mem'));
    RunOpsAppend(c.ops + d.ops, [op], fr.slots, k);
    RunOne(op, fr.slots, k1);
    ValsKept(ls.vals, st.env, fr.regs, k1.regs, nr, d.next);
    VarsAfterStore(tys, ns, ls.vars, st.vars, fr.slots, fr.base, fr.sp, mem, mem');
    FrameAfterWrite(tys, fr.slots, fr.base, fr.sp, mem, mem');
  }

  // ----- argument lists -----

  lemma {:induction false} ArgsComputes(args: seq<Expr>, vals: seq<Value>, env: Env, r: nat, slots: Regs, k: Core)
    requires ValsMatch(vals, env, k.regs, r) && EvalArgs(args, env).Some?
    ensures AllInRange(EvalArgs(args, env).value)
    ensures ArgsCompute(EmittedArgs(args, vals, r), r, slots, k, Pats(EvalArgs(args, env).value))
    decreases |args|
  {
    hide PatOf, Eval, InRange;
    if args == [] {
      assert Pats(EvalArgs(args, env).value) == [];
    } else {
      var v, vs := Eval(args[0], env).value, EvalArgs(args[1..], env).value;
      var a := Emitted(args[0], vals, r);
      EmittedComputes(args[0], vals, env, r, slots, k);
      var k1 := After(a.ops, slots, k);
      ValsKept(vals, env, k.regs, k1.regs, r, a.next);
      ArgsComputes(args[1..], vals, env, a.next, slots, k1);
      ArgsJoin(a, EmittedArgs(args[1..], vals, a.next), r, slots, k, PatOf(TypeOf(args[0]), v), Pats(vs));
      assert Pats(EvalArgs(args, env).value) == [PatOf(TypeOf(args[0]), v)] + Pats(vs);
    }
  }

  lemma ArgsJoin(a: ExprCode, c: ArgsCode, r: nat, slots: Regs, k: Core, p: nat, ps: seq<nat>)
    requires Computes(a, r, slots, k, p) && ArgsCompute(c, a.next, slots, After(a.ops, slots, k), ps)
    ensures ArgsCompute(ArgsCode(a.ops + c.ops, [a.res] + c.res, c.next), r, slots, k, [p] + ps)
  {
    RunOpsAppend(a.ops, c.ops, slots, k);
    var k1 := After(a.ops, slots, k);
    var k2 := After(c.ops, slots, k1);
    OpKept(a.res, k1.regs, k2.regs, a.next, slots);
    assert ([a.res] + c.res)[1..] == c.res;
  }

  lemma ThreeOps(os: seq<Operand>, regs: Regs, slots: Regs, ps: seq<nat>)
    requires |os| == 3 && OpVals(os, regs, slots) == Some(ps)
    ensures |ps| == 3 && OpVal(os[0], regs, slots) == Some(ps[0]) &&
            OpVal(os[1], regs, slots) == Some(ps[1]) && OpVal(os[2], regs, slots) == Some(ps[2])
  {
    assert OpVals(os[1..], regs, slots).Some? && OpVals(os[1..][1..], regs, slots).Some?;
    assert os[1..][0] == os[1] && os[1..][1..][0] == os[2];
  }

  lemma {:induction false} SignBound(heap: Mem, p: nat, q: nat, n: nat)
    requires CompareBytes(heap, p, q, n).Some?
    ensures -Pow2(31) <= CompareBytes(heap, p, q, n).value < Pow2(31)
    decreases n
  {
    if n > 0 && heap[p] == heap[q] {
      SignBound(heap, p + 1, q + 1, n - 1);
    }
  }

  /** memcmp's result is a plain int. */
  lemma SignInRange(s: int)
    requires -Pow2(31) <= s < Pow2(31)
    ensures InRange(TInt(4, true), s)
  {
    hide Pow2;
  }

  lemma MemCmpPatterns(vs: seq<SVal>)
    requires MemCmpOk(vs) && AllInRange(vs)
    ensures Pats(vs) == [vs[0].v, vs[1].v, vs[2].v]
  {
    assert InRange(vs[0].ty, vs[0].v) && InRange(vs[1].ty, vs[1].v) && InRange(vs[2].ty, vs[2].v);
    PointerPattern(vs[0].ty, vs[0].v);
    PointerPattern(vs[1].ty, vs[1].v);
    ModSmall(vs[2].v, Pow2(Width(vs[2].ty)));
  }

  lemma MemCmpAdvances(
      p: Expr, q: Expr, n: Expr, ls: Locals, st: SState, tys: seq<Ty>, nr: nat, ns: nat, fr: Frame, mem: Mem)
    requires StateMatch(tys, ls, st, nr, ns, fr, mem) && Do(MemCmp(p, q, n), st).Some?
    ensures var c := ActionCode(MemCmp(p, q, n), ls, nr);
            Advances(tys, c.ops, PushValue(ls, Value(c.res, "memcmp_ret")), st, Do(MemCmp(p, q, n), st).value,
                     nr, c.next, ns, fr, mem)
  {
    var k, vs := Core(fr.regs, mem), EvalArgs([p, q, n], st.env).value;
    ArgsComputes([p, q, n], ls.vals, st.env, nr, fr.slots, k);
    MemCmpPatterns(vs);
    MemCmpStep(EmittedArgs([p, q, n], ls.vals, nr), ls, st, vs, tys, nr, ns, fr, mem);
  }

  lemma CompareHeap(heap: Mem, mem: Mem, base: nat, p: nat, q: nat, n: nat)
    requires HeapMatch(heap, mem, base) && CompareBytes(heap, p, q, n).Some?
    ensures CompareBytes(mem, p, q, n) == CompareBytes(heap, p, q, n)
    ensures InRange(TInt(4, true), CompareBytes(heap, p, q, n).value)
  {
    CompareAgree(heap, mem, p, q, n);
    SignBound(heap, p, q, n);
    SignInRange(CompareBytes(heap, p, q, n).value);
  }

  lemma MemCmpStep(c: ArgsCode, ls: Locals, st: SState, vs: seq<SVal>, tys: seq<Ty>, nr: nat, ns: nat, fr: Frame,
      mem: Mem)
    requires StateMatch(tys, ls, st, nr, ns, fr, mem)
    requires |c.res| == 3 && MemCmpOk(vs) &&
             ArgsCompute(c, nr, fr.slots, Core(fr.regs, mem), [vs[0].v, vs[1].v, vs[2].v])
    requires CompareBytes(st.heap, vs[0].v, vs[1].v, vs[2].v).Some?
    ensures var s := CompareBytes(st.heap, vs[0].v, vs[1].v, vs[2].v).value;
            Advances(tys, c.ops + [IMemCmp(c.next, c.res[0], c.res[1], c.res[2])],
                     PushValue(ls, Value(Reg(c.next), "memcmp_ret")), st, st.(env := st.env + [SVal(TInt(4, true), s)]),
                     nr, c.next + 1, ns, fr, mem)
  {
    hide VarsMatch, ValsMatch, FrameOk, CompareBytes, InRange;
    var x, y, z := vs[0].v, vs[1].v, vs[2].v;
    var k1 := After(c.ops, fr.slots, Core(fr.regs, mem));
    ThreeOps(c.res, k1.regs, fr.slots, [x, y, z]);
    CompareHeap(st.heap, mem, fr.base, x, y, z);
    var s := CompareBytes(st.heap, x, y, z).value;
    var op := IMemCmp(c.next, c.res[0], c.res[1], c.res[2]);
    assert StepOp(op, fr.slots, k1) == SetReg(k1, c.next, Some(Pat(32, s)));
    OneMore(c.ops, op, fr.slots, Core(fr.regs, mem));
    ResultAdvances(tys, c.ops + [op], ls, st, Value(Reg(c.next), "memcmp_ret"), SVal(TInt(4, true), s), nr, c.next + 1,
                   ns, fr, mem, k1.regs[c.next := Pat(32, s)]);
  }

  lemma DeclareAdvances(ty: Ty, name: string, ls: Locals, st: SState, tys: seq<Ty>, nr: nat, ns: nat, fr: Frame,
      mem: Mem)
    requires StateMatch(tys, ls, st, nr, ns, fr, mem) && Do(Declare(ty, name), st).Some?
    requires ns < |tys| && tys[ns] == ty
    ensures Advances(tys, [], ls.(vars := ls.vars + [Variable(ns, ty, name)]), st, Do(Declare(ty, name), st).value,
                     nr, nr, ns + 1, fr, mem)
  {
    var vars', cells' := ls.vars + [Variable(ns, ty, name)], st.vars + [Cell(ty, None)];
    assert SlotOk(tys[ns], ns, fr.slots, fr.base, fr.sp, mem);
    forall i | 0 <= i < |vars'|
      ensures VarMatch(tys, ns + 1, vars'[i], cells'[i], fr.slots, mem)
    {
      if i < |ls.vars| {
        assert VarMatch(tys, ns, ls.vars[i], st.vars[i], fr.slots, mem);
      }
    }
    forall i, j | 0 <= i < j < |vars'|
      ensures vars'[i].slot != vars'[j].slot
    {
      assert VarMatch(tys, ns, ls.vars[i], st.vars[i], fr.slots, mem);
    }
    assert fr.(regs := fr.regs) == fr;
  }

  /** Every straight-line statement. */
  lemma ActionAdvances(a: Action, ls: Locals, st: SState, b: Builder, tys: seq<Ty>, fr: Frame, mem: Mem)
    requires StateMatch(tys, ls, st, b.cfg.nextReg, |b.cfg.slots|, fr, mem) && Do(a, st).Some?
    requires LowerAction(a, ls, b).cfg.slots <= tys
    ensures Advances(tys, ActionCode(a, ls, b.cfg.nextReg).ops, ActionLocals(a, ls, b), st, Do(a, st).value,
            b.cfg.nextReg,
                     ActionCode(a, ls, b.cfg.nextReg).next, |LowerAction(a, ls, b).cfg.slots|, fr, mem)
  {
    var nr, ns := b.cfg.nextReg, |b.cfg.slots|;
    match a
    case ReadValue(rd) => ReadAdvances(rd, ls, st, ReadName(rd, ls, b), tys, nr, ns, fr, mem);
    case Declare(ty, name) => DeclareAdvances(ty, name, ls, st, tys, nr, ns, fr, mem);
    case Set(x, e) => SetAdvances(x, e, ls, st, tys, nr, ns, fr, mem);
    case Store(e, p) => StoreAdvances(e, p, ls, st, tys, nr, ns, fr, mem);
    case MemCmp(p, q, n) => MemCmpAdvances(p, q, n, ls, st, tys, nr, ns, fr, mem);
  }
}
