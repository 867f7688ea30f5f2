/** Control flow and data flow of a function under construction: which blocks branch where, which
    are reachable, and which registers are defined whenever control enters them. */
module Flow {
  import opened Types
  import opened Source
  import opened Ir
  import opened Text
  import opened Lowering

  // ----- instructions -----

  function DefOf(op: Op): set<nat> {
    match op
    case IBin(d, _, _, _, _) => {d}
    case ICmp(d, _, _, _, _) => {d}
    case ISExt(d, _, _, _) => {d}
    case IZExt(d, _, _, _) => {d}
    case ITrunc(d, _, _, _) => {d}
    case IBitCast(d, _) => {d}
    case IGep(d, _, _, _) => {d}
    case ILoad(d, _, _) => {d}
    case IMemCmp(d, _, _, _) => {d}
    case ICall(d, _, _) => {d}
    case _ => {}
  }

  function RegOf(o: Operand): set<nat> { if o.Reg? then {o.r} else {} }

  function RegsOf(os: seq<Operand>): set<nat> { if os == [] then {} else RegOf(os[0]) + RegsOf(os[1..]) }

  function UsesOf(op: Op): set<nat> {
    match op
    case IBin(_, _, _, a, b) => RegOf(a) + RegOf(b)
    case ICmp(_, _, _, a, b) => RegOf(a) + RegOf(b)
    case ISExt(_, _, _, a) => RegOf(a)
    case IZExt(_, _, _, a) => RegOf(a)
    case ITrunc(_, _, _, a) => RegOf(a)
    case IBitCast(_, a) => RegOf(a)
    case IGep(_, _, p, i) => RegOf(p) + RegOf(i)
    case ILoad(_, _, p) => RegOf(p)
    case IStore(_, v, p) => RegOf(v) + RegOf(p)
    case IMemCmp(_, p, q, n) => RegOf(p) + RegOf(q) + RegOf(n)
    case ICall(_, _, args) => RegsOf(args)
    case ICondBr(c, _, _) => RegOf(c)
    case IRet(Some(o)) => RegOf(o)
    case _ => {}
  }

  function TargetsOf(op: Op): set<Label> {
    match op
    case IBr(t) => {t}
    case ICondBr(_, yes, no) => {yes, no}
    case _ => {}
  }

  /** The functions an instruction calls. */
  function CalleesOf(op: Op): set<nat> { if op.ICall? then {op.fn} else {} }

  function Defs(ops: seq<Op>): set<nat> { if ops == [] then {} else DefOf(ops[0]) + Defs(ops[1..]) }

  function Targets(ops: seq<Op>): set<Label> { if ops == [] then {} else TargetsOf(ops[0]) + Targets(ops[1..]) }

  function Callees(ops: seq<Op>): set<nat> { if ops == [] then {} else CalleesOf(ops[0]) + Callees(ops[1..]) }

  /** No instruction uses a register before it is defined, given that `defined` are on entry. */
  predicate UsesOk(ops: seq<Op>, defined: set<nat>) {
    ops == [] || (UsesOf(ops[0]) <= defined && UsesOk(ops[1..], defined + DefOf(ops[0])))
  }

  /** Definitions number the registers in increasing order, from r up to next. */
  predicate Ascends(ops: seq<Op>, r: nat, next: nat) {
    if ops == [] then r <= next
    else if DefOf(ops[0]) == {} then Ascends(ops[1..], r, next)
    else exists d :: DefOf(ops[0]) == {d} && r <= d < next && Ascends(ops[1..], d + 1, next)
  }

  predicate Open(ops: seq<Op>) { forall i :: 0 <= i < |ops| ==> !IsTerminator(ops[i]) }

  /** The one terminator is at the end. */
  predicate Closed(ops: seq<Op>) { |ops| > 0 && IsTerminator(ops[|ops| - 1]) && Open(ops[..|ops| - 1]) }

  lemma {:induction false} DefsAppend(xs: seq<Op>, ys: seq<Op>)
    ensures Defs(xs + ys) == Defs(xs) + Defs(ys)
    ensures Targets(xs + ys) == Targets(xs) + Targets(ys)
    ensures Callees(xs + ys) == Callees(xs) + Callees(ys)
    decreases |xs|
  {
    if xs == [] {
      assert xs + ys == ys;
    } else {
      assert (xs + ys)[1..] == xs[1..] + ys;
      DefsAppend(xs[1..], ys);
    }
  }

  lemma {:induction false} UsesAppend(xs: seq<Op>, ys: seq<Op>, defined: set<nat>)
    ensures UsesOk(xs + ys, defined) <==> UsesOk(xs, defined) && UsesOk(ys, defined + Defs(xs))
    decreases |xs|
  {
    if xs == [] {
      assert xs + ys == ys && defined + Defs(xs) == defined;
    } else {
      assert (xs + ys)[1..] == xs[1..] + ys;
      UsesAppend(xs[1..], ys, defined + DefOf(xs[0]));
      assert defined + DefOf(xs[0]) + Defs(xs[1..]) == defined + Defs(xs);
    }
  }

  lemma {:induction false} UsesMono(ops: seq<Op>, a: set<nat>, b: set<nat>)
    requires UsesOk(ops, a) && a <= b
    ensures UsesOk(ops, b)
    decreases |ops|
  {
    if ops != [] {
      UsesMono(ops[1..], a + DefOf(ops[0]), b + DefOf(ops[0]));
    }
  }

  lemma {:induction false} AscendsAppend(xs: seq<Op>, ys: seq<Op>, r: nat, m: nat, n: nat)
    requires Ascends(xs, r, m) && Ascends(ys, m, n)
    ensures Ascends(xs + ys, r, n)
    decreases |xs|
  {
    if xs == [] {
      assert xs + ys == ys;
      AscendsFrom(ys, r, m, n);
    } else {
      assert (xs + ys)[1..] == xs[1..] + ys;
      AscendsMono(ys, m, n);
      if DefOf(xs[0]) == {} {
        AscendsAppend(xs[1..], ys, r, m, n);
      } else {
        var d :| DefOf(xs[0]) == {d} && r <= d < m && Ascends(xs[1..], d + 1, m);
        AscendsAppend(xs[1..], ys, d + 1, m, n);
      }
    }
  }

  lemma {:induction false} AscendsFrom(ops: seq<Op>, r: nat, m: nat, n: nat)
    requires Ascends(ops, m, n) && r <= m
    ensures Ascends(ops, r, n)
    decreases |ops|
  {
    if ops != [] && DefOf(ops[0]) == {} {
      AscendsFrom(ops[1..], r, m, n);
    }
  }

  lemma {:induction false} AscendsMono(ops: seq<Op>, r: nat, n: nat)
    requires Ascends(ops, r, n)
    ensures r <= n
    decreases |ops|
  {
    if ops != [] {
      if DefOf(ops[0]) == {} {
        AscendsMono(ops[1..], r, n);
      } else {
        var d :| DefOf(ops[0]) == {d} && r <= d < n && Ascends(ops[1..], d + 1, n);
      }
    }
  }

  /** Straight-line code that an expression or a statement appends: it uses what is defined, numbers
      its results from r to next, and does not branch. */
  predicate Tidy(ops: seq<Op>, defined: set<nat>, r: nat, next: nat) {
    UsesOk(ops, defined) && Ascends(ops, r, next) && Open(ops)
  }

  lemma TidyAppend(xs: seq<Op>, ys: seq<Op>, defined: set<nat>, r: nat, m: nat, n: nat)
    requires Tidy(xs, defined, r, m) && Tidy(ys, defined + Defs(xs), m, n)
    ensures Tidy(xs + ys, defined, r, n) && Defs(xs + ys) == Defs(xs) + Defs(ys) &&
            Callees(xs + ys) == Callees(xs) + Callees(ys)
  {
    DefsAppend(xs, ys);
    UsesAppend(xs, ys, defined);
    AscendsAppend(xs, ys, r, m, n);
  }

  lemma TidyOne(op: Op, defined: set<nat>, r: nat)
    requires UsesOf(op) <= defined && !IsTerminator(op) && (DefOf(op) == {} || DefOf(op) == {r})
    ensures Tidy([op], defined, r, if DefOf(op) == {} then r else r + 1) && Defs([op]) == DefOf(op) &&
            Callees([op]) == CalleesOf(op)
  {
    assert [op][1..] == [];
    assert Defs([op][1..]) == {} && Callees([op][1..]) == {};
    assert Ascends([op][1..], r + 1, r + 1);
    if DefOf(op) != {} {
      assert DefOf(op) == {r} && r <= r < r + 1 && Ascends([op][1..], r + 1, r + 1);
    }
  }

  /** One more instruction after tidy code. */
  lemma TidyMore(ops: seq<Op>, op: Op, defined: set<nat>, r: nat, m: nat)
    requires Tidy(ops, defined, r, m) && UsesOf(op) <= defined + Defs(ops) && !IsTerminator(op)
    requires DefOf(op) == {} || DefOf(op) == {m}
    ensures Tidy(ops + [op], defined, r, if DefOf(op) == {} then m else m + 1) &&
            Defs(ops + [op]) == Defs(ops) + DefOf(op)
    ensures Callees(ops + [op]) == Callees(ops) + CalleesOf(op)
  {
    TidyOne(op, defined + Defs(ops), m);
    TidyAppend(ops, [op], defined, r, m, if DefOf(op) == {} then m else m + 1);
  }

  lemma {:induction false} OpenTargets(ops: seq<Op>)
    requires Open(ops)
    ensures Targets(ops) == {}
    decreases |ops|
  {
    if ops != [] {
      OpenTargets(ops[1..]);
    }
  }

  // ----- expressions -----

  /** Every value in scope is in a defined register. */
  predicate ScopeOk(vals: seq<Value>, defined: set<nat>) {
    forall i :: 0 <= i < |vals| ==> RegOf(vals[i].op) <= defined
  }

  lemma ScopeMono(vals: seq<Value>, a: set<nat>, b: set<nat>)
    requires ScopeOk(vals, a) && a <= b
    ensures ScopeOk(vals, b)
  {}

  predicate CodeTidy(c: ExprCode, defined: set<nat>, r: nat) {
    Tidy(c.ops, defined, r, c.next) && RegOf(c.res) <= defined + Defs(c.ops) && Callees(c.ops) == {}
  }

  lemma CodeMore(c: ExprCode, op: Op, defined: set<nat>, r: nat)
    requires CodeTidy(c, defined, r) && UsesOf(op) <= defined + Defs(c.ops) && !IsTerminator(op) &&
             DefOf(op) == {c.next} && !op.ICall?
    ensures CodeTidy(ExprCode(c.ops + [op], Reg(c.next), c.next + 1), defined, r)
  {
    TidyMore(c.ops, op, defined, r, c.next);
  }

  lemma CodeTwo(a: ExprCode, b: ExprCode, defined: set<nat>, r: nat)
    requires CodeTidy(a, defined, r) && CodeTidy(b, defined + Defs(a.ops), a.next)
    ensures CodeTidy(ExprCode(a.ops + b.ops, b.res, b.next), defined, r)
    ensures RegOf(a.res) + RegOf(b.res) <= defined + Defs(a.ops + b.ops)
  {
    TidyAppend(a.ops, b.ops, defined, r, a.next, b.next);
  }

  lemma {:induction false} EmittedTidy(e: Expr, vals: seq<Value>, r: nat, defined: set<nat>)
    requires ScopeOk(vals, defined)
    ensures CodeTidy(Emitted(e, vals, r), defined, r)
    decreases e, 1
  {
    hide Tidy;
    match e
    case Val(i, _) => NothingTidy(defined, r);
    case Lit(_, _) => NothingTidy(defined, r);
    case Arith(op, l, rh) =>
      var a, b := PairTidy(l, rh, e, vals, r, defined);
      CodeMore(ExprCode(a.ops + b.ops, b.res, b.next),
          IBin(b.next, SelectArith(op, TypeOf(l)), Width(TypeOf(l)), a.res, b.res), defined, r);
    case Rel(op, l, rh) =>
      var a, b := PairTidy(l, rh, e, vals, r, defined);
      CodeMore(ExprCode(a.ops + b.ops, b.res, b.next),
          ICmp(b.next, SelectRel(op, TypeOf(l)), Width(TypeOf(l)), a.res, b.res), defined, r);
    case PtrArith(minus, l, rh) =>
      EmittedTidy(rh, vals, r, defined);
      WidenTidy(TypeOf(rh), Emitted(rh, vals, r), defined, r);
      var b := Widen(TypeOf(rh), Emitted(rh, vals, r));
      EmittedTidy(l, vals, b.next, defined + Defs(b.ops));
      AddressedTidy(minus, Size(Pointee(TypeOf(l))), b, Emitted(l, vals, b.next), defined, r);
    case Cast(to, e1) =>
      EmittedTidy(e1, vals, r, defined);
      ConvertTidy(TypeOf(e1), to, Emitted(e1, vals, r), defined, r);
    case BitCast(to, e1) =>
      EmittedTidy(e1, vals, r, defined);
      var c := Emitted(e1, vals, r);
      CodeMore(c, IBitCast(c.next, c.res), defined, r);
  }

  lemma NothingTidy(defined: set<nat>, r: nat)
    ensures Tidy([], defined, r, r) && Defs([]) == {} && Callees([]) == {}
  {}

  lemma {:induction false} PairTidy(l: Expr, rh: Expr, e: Expr, vals: seq<Value>, r: nat, defined: set<nat>)
    returns (a: ExprCode, b: ExprCode)
    requires ScopeOk(vals, defined) && l < e && rh < e
    ensures a == Emitted(l, vals, r) && b == Emitted(rh, vals, a.next)
    ensures CodeTidy(ExprCode(a.ops + b.ops, b.res, b.next), defined, r)
    ensures RegOf(a.res) + RegOf(b.res) <= defined + Defs(a.ops + b.ops)
    decreases e, 0
  {
    a := Emitted(l, vals, r);
    EmittedTidy(l, vals, r, defined);
    b := Emitted(rh, vals, a.next);
    EmittedTidy(rh, vals, a.next, defined + Defs(a.ops));
    CodeTwo(a, b, defined, r);
  }

  lemma WidenTidy(t: Ty, c: ExprCode, defined: set<nat>, r: nat)
    requires CodeTidy(c, defined, r)
    ensures CodeTidy(Widen(t, c), defined, r)
  {
    hide Tidy;
    CodeMore(c, if IsSigned(t) then ISExt(c.next, Width(t), 64, c.res)
        else IZExt(c.next, Width(t), 64, c.res), defined, r);
  }

  lemma ConvertTidy(from: Ty, to: Ty, c: ExprCode, defined: set<nat>, r: nat)
    requires CodeTidy(c, defined, r)
    ensures CodeTidy(Convert(from, to, c), defined, r)
  {
    hide Tidy;
    CodeMore(c, if Width(from) > Width(to) then ITrunc(c.next, Width(from), Width(to), c.res)
                else if IsSigned(from) then ISExt(c.next, Width(from), Width(to), c.res)
                else IZExt(c.next, Width(from), Width(to), c.res), defined, r);
  }

  lemma AddressedTidy(minus: bool, scale: nat, b: ExprCode, a: ExprCode, defined: set<nat>, r: nat)
    requires CodeTidy(b, defined, r) && CodeTidy(a, defined + Defs(b.ops), b.next)
    ensures CodeTidy(Addressed(minus, scale, b, a), defined, r)
  {
    hide Tidy, Defs, Callees;
    CodeTwo(b, a, defined, r);
    var ba := ExprCode(b.ops + a.ops, a.res, a.next);
    if minus {
      var sub := IBin(a.next, Sub, 64, Const(0), b.res);
      CodeMore(ba, sub, defined, r);
      var c := ExprCode(ba.ops + [sub], Reg(a.next), a.next + 1);
      DefsAppend(ba.ops, [sub]);
      CodeMore(c, IGep(a.next + 1, scale, a.res, Reg(a.next)), defined, r);
      assert c.ops + [IGep(a.next + 1, scale, a.res, Reg(a.next))] == ba.ops +
             [sub, IGep(a.next + 1, scale, a.res, Reg(a.next))];
    } else {
      CodeMore(ba, IGep(a.next, scale, a.res, b.res), defined, r);
    }
  }

  lemma {:induction false} ArgsTidy(args: seq<Expr>, vals: seq<Value>, r: nat, defined: set<nat>)
    requires ScopeOk(vals, defined)
    ensures var c := EmittedArgs(args, vals, r);
            Tidy(c.ops, defined, r, c.next) && RegsOf(c.res) <= defined + Defs(c.ops) && Callees(c.ops) == {}
    decreases |args|
  {
    hide Tidy;
    if args == [] {
      NothingTidy(defined, r);
    } else {
      var a := Emitted(args[0], vals, r);
      EmittedTidy(args[0], vals, r, defined);
      var rest := EmittedArgs(args[1..], vals, a.next);
      ArgsTidy(args[1..], vals, a.next, defined + Defs(a.ops));
      TidyAppend(a.ops, rest.ops, defined, r, a.next, rest.next);
      assert ([a.res] + rest.res)[1..] == rest.res;
    }
  }

  lemma ReadTidy(rd: Read, ls: Locals, r: nat, defined: set<nat>)
    requires ScopeOk(ls.vals, defined)
    ensures CodeTidy(ReadCode(rd, ls, r), defined, r)
  {
    hide Tidy;
    match rd
    case RGet(x) =>
      NothingTidy(defined, r);
      if x < |ls.vars| {
        var load := ILoad(r, ls.vars[x].ty, SlotPtr(ls.vars[x].slot));
        CodeMore(ExprCode([], Const(0), r), load, defined, r);
        assert [] + [load] == [load];
      }
    case RLoad(p) =>
      var c := Emitted(p, ls.vals, r);
      EmittedTidy(p, ls.vals, r, defined);
      CodeMore(c, ILoad(c.next, Pointee(TypeOf(p)), c.res), defined, r);
  }

  lemma ActionTidy(a: Action, ls: Locals, r: nat, defined: set<nat>)
    requires ScopeOk(ls.vals, defined)
    ensures CodeTidy(ActionCode(a, ls, r), defined, r)
  {
    hide Tidy, Defs, Callees, EmittedArgs;
    match a
    case ReadValue(rd) => ReadTidy(rd, ls, r, defined);
    case Declare(_, _) => NothingTidy(defined, r);
    case Set(x, e) =>
      var c := Emitted(e, ls.vals, r);
      EmittedTidy(e, ls.vals, r, defined);
      TidyMore(c.ops, IStore(TypeOf(e), c.res, SlotPtr(if x < |ls.vars| then ls.vars[x].slot else 0)),
          defined, r, c.next);
    case Store(e, p) =>
      var c, d := PairTidy(e, p, PtrArith(false, e, p), ls.vals, r, defined);
      TidyMore(c.ops + d.ops, IStore(TypeOf(e), c.res, d.res), defined, r, d.next);
    case MemCmp(p, q, n) =>
      ArgsTidy([p, q, n], ls.vals, r, defined);
      var cs := EmittedArgs([p, q, n], ls.vals, r);
      ThreeRegs(cs.res);
      var op := IMemCmp(cs.next, cs.res[0], cs.res[1], cs.res[2]);
      TidyMore(cs.ops, op, defined, r, cs.next);
  }

  lemma ThreeRegs(os: seq<Operand>)
    requires |os| == 3
    ensures RegsOf(os) == RegOf(os[0]) + RegOf(os[1]) + RegOf(os[2])
  {
    var last := os[1..][1..];
    assert os[1..][0] == os[1] && last[0] == os[2] && last[1..] == [];
    assert RegsOf(last) == RegOf(last[0]) + RegsOf(last[1..]);
    assert RegsOf(os[1..]) == RegOf(os[1..][0]) + RegsOf(last);
  }
}
