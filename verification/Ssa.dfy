/** Every finished function is in SSA form; the blocks of a statement form a single-entry region;
    calls nest no deeper than the functions were created. */
module Ssa {
  import opened Memory
  import opened Source
  import opened Ir
  import opened Text
  import opened Lowering
  import opened Shapes
  import opened Growth
  import opened Flow
  import opened Layout
  import opened Structure
  import opened Emission
  import opened Finished

  // ----- where a block's instructions are in the log -----

  function Offset(order: seq<Label>, code: Blocks, l: Label): nat {
    if order == [] then 0
    else if l == order[|order| - 1] then |Flat(order[..|order| - 1], code)|
    else Offset(order[..|order| - 1], code, l)
  }

  lemma {:induction false} OffsetFits(order: seq<Label>, code: Blocks, l: Label)
    requires l in order && l in code && NoDup(order)
    ensures Offset(order, code, l) + |code[l]| <= |Flat(order, code)|
    ensures Flat(order, code)[Offset(order, code, l)..Offset(order, code, l) + |code[l]|] == code[l]
    decreases |order|
  {
    var n := |order| - 1;
    var a, b := Flat(order[..n], code), if order[n] in code then code[order[n]] else [];
    assert Flat(order, code) == a + b;
    if l == order[n] {
      assert (a + b)[|a|..|a| + |b|] == b;
    } else {
      assert l in order[..n];
      OffsetFits(order[..n], code, l);
      var o, k := Offset(order[..n], code, l), |code[l]|;
      assert (a + b)[o..o + k] == a[o..o + k];
    }
  }

  lemma {:induction false} OffsetApart(order: seq<Label>, code: Blocks, l: Label, x: Label)
    requires l in order && x in order && l in code && x in code && NoDup(order) && Place(order, l) < Place(order, x)
    ensures Offset(order, code, l) + |code[l]| <= Offset(order, code, x)
    decreases |order|
  {
    var n := |order| - 1;
    assert l in order[..n];
    if x == order[n] {
      OffsetFits(order[..n], code, l);
    } else {
      assert x in order[..n];
      PlacePrefix(order[..n], order, l);
      PlacePrefix(order[..n], order, x);
      OffsetApart(order[..n], code, l, x);
    }
  }

  /** Index in the log of the instruction at position i of block l. */
  function LogIndex(g: Cfg, l: Label, i: nat): nat { Offset(g.order, g.code, l) + i }

  lemma LogIndexAt(g: Cfg, pending: set<Label>, l: Label, i: nat)
    requires LaidOut(g, pending) && l in g.order && i < |OpsIn(g, l)|
    ensures LogIndex(g, l, i) < |Log(g)| && OpsOf(Log(g))[LogIndex(g, l, i)] == OpsIn(g, l)[i]
  {
    hide Targets, Open, Closed, NoDup, Place;
    OffsetFits(g.order, g.code, l);
    var o := Offset(g.order, g.code, l);
    assert Log(g)[o..o + |g.code[l]|][i] == Log(g)[o + i];
  }

  lemma LogIndexUnique(g: Cfg, pending: set<Label>, l: Label, i: nat, x: Label, j: nat)
    requires LaidOut(g, pending) && l in g.order && i < |OpsIn(g, l)| && x in g.order && j < |OpsIn(g, x)|
    requires LogIndex(g, l, i) == LogIndex(g, x, j)
    ensures l == x && i == j
  {
    hide Targets, Open, Closed;
    if Place(g.order, l) < Place(g.order, x) {
      OffsetApart(g.order, g.code, l, x);
    } else if Place(g.order, x) < Place(g.order, l) {
      OffsetApart(g.order, g.code, x, l);
    }
  }

  // ----- one definition a register -----

  lemma {:induction false} AscendsAt(ops: seq<Op>, r: nat, n: nat, i: nat, d: nat)
    requires Ascends(ops, r, n) && i < |ops| && d in DefOf(ops[i])
    ensures r <= d < n
    decreases |ops|
  {
    if DefOf(ops[0]) == {} {
      AscendsAt(ops[1..], r, n, i - 1, d);
    } else {
      var e :| DefOf(ops[0]) == {e} && r <= e < n && Ascends(ops[1..], e + 1, n);
      if i > 0 {
        AscendsAt(ops[1..], e + 1, n, i - 1, d);
      }
    }
  }

  lemma {:induction false} AscendsOnce(ops: seq<Op>, r: nat, n: nat, i: nat, j: nat, d: nat)
    requires Ascends(ops, r, n) && i < j < |ops| && d in DefOf(ops[i])
    ensures d !in DefOf(ops[j])
    decreases |ops|
  {
    if DefOf(ops[0]) == {} {
      AscendsOnce(ops[1..], r, n, i - 1, j - 1, d);
    } else {
      var e :| DefOf(ops[0]) == {e} && r <= e < n && Ascends(ops[1..], e + 1, n);
      if i > 0 {
        AscendsOnce(ops[1..], e + 1, n, i - 1, j - 1, d);
      } else if d in DefOf(ops[j]) {
        AscendsAt(ops[1..], e + 1, n, j - 1, d);
      }
    }
  }

  /** The log of a finished body. */
  lemma BodyLog(src: seq<FnDef>, k: nat, bound: nat) returns (m: Marks)
    requires k < |src| && LoopOk(src[k].body, false) && CallsOlder(src[k].body, bound)
    ensures var g := BodyOf(src, k).cfg;
            BodyFacts(src[k], g, m) && Ascends(OpsOf(Log(g)), |src[k].params|, g.nextReg) &&
            Below(Callees(OpsOf(Log(g))), bound)
  {
    hide Inv, Trace, Log, Lower, FallsThrough, EndsInExit, Ascends, Within, CallsOlder;
    m := BodyInv(src, k);
    TraceEmits(src[k].body, Params(|src[k].params|), BeginFunction(src[k], Before(src, k)), bound, false);
  }

  /** Instructions of the finished entry block start after its allocas. */
  function Shift(g: Cfg, l: Label): nat { if l == ENTRY then |g.slots| else 0 }

  lemma FinishedAt(g: Cfg, l: Label, i: nat)
    requires ENTRY in g.code && l in g.code && i < |FnOps(Finish(g), l)|
    ensures i < Shift(g, l) ==> FnOps(Finish(g), l)[i].IAlloca?
    ensures i >= Shift(g, l) ==>
              i - Shift(g, l) < |OpsIn(g, l)| && FnOps(Finish(g), l)[i] == OpsIn(g, l)[i - Shift(g, l)]
  {
    hide OpsIn, Targets, Defs, Closed, Open, Finish;
    FinishOps(g, l);
    var pre := if l == ENTRY then OpsOf(AllocaPrefix(g.slots)) else [];
    assert |pre| == Shift(g, l);
    if i < |pre| {
      assert (pre + OpsIn(g, l))[i] == pre[i];
    } else {
      assert (pre + OpsIn(g, l))[i] == OpsIn(g, l)[i - |pre|];
    }
  }

  lemma FinishedListed(g: Cfg, m: Marks, l: Label)
    requires Inv(g, m) && m.pending == {} && l in Finish(g).blocks
    ensures l in g.order && l in g.code && ENTRY in g.code && LaidOut(g, {})
  {}

  /** No register is defined twice, and none that holds an argument is defined at all. */
  lemma SingleDefinition(src: seq<FnDef>, k: nat, l: Label, i: nat, x: Label, j: nat, r: nat)
    requires k < |src| && LoopOk(src[k].body, false)
    requires var f := CompileFn(src, k);
             l in f.blocks && i < |FnOps(f, l)| && r in DefOf(FnOps(f, l)[i]) &&
             x in f.blocks && j < |FnOps(f, x)| && r in DefOf(FnOps(f, x)[j])
    ensures l == x && i == j && r >= |src[k].params|
  {
    hide Inv, LaidOut, Ascends, BodyOf, Callees, Trace, Log, CallBound, CallsOlder, FallsThrough, EndsInExit;
    var g := BodyOf(src, k).cfg;
    SomeBound(src[k].body, CallBound(src[k].body));
    var m := BodyLog(src, k, CallBound(src[k].body));
    FinishedListed(g, m, l);
    FinishedListed(g, m, x);
    FinishedAt(g, l, i);
    FinishedAt(g, x, j);
    var i', j' := i - Shift(g, l), j - Shift(g, x);
    var a, b := LogIndex(g, l, i'), LogIndex(g, x, j');
    LogIndexAt(g, {}, l, i');
    LogIndexAt(g, {}, x, j');
    AscendsAt(OpsOf(Log(g)), |src[k].params|, g.nextReg, a, r);
    if a < b {
      AscendsOnce(OpsOf(Log(g)), |src[k].params|, g.nextReg, a, b, r);
    } else if b < a {
      AscendsOnce(OpsOf(Log(g)), |src[k].params|, g.nextReg, b, a, r);
    }
    LogIndexUnique(g, {}, l, i', x, j');
  }

  // ----- definitions dominate uses -----

  /** Registers defined by the blocks of a walk. */
  function WalkDefs(f: Fn, p: seq<Label>): set<nat> {
    if p == [] then {} else WalkDefs(f, p[..|p| - 1]) + Defs(FnOps(f, p[|p| - 1]))
  }

  lemma WalkPrefix(f: Fn, p: seq<Label>)
    requires Walk(f, p) && |p| > 1
    ensures Walk(f, p[..|p| - 1]) && FnEdge(f, p[|p| - 2], p[|p| - 1])
  {
    hide FnEdge;
    var q := p[..|p| - 1];
    forall i | 0 <= i < |q| - 1
      ensures FnEdge(f, q[i], q[i + 1])
    {
      assert FnEdge(f, p[i], p[i + 1]);
    }
    assert FnEdge(f, p[|p| - 2], p[|p| - 2 + 1]);
  }

  lemma {:induction false} EntryDefined(g: Cfg, m: Marks, n: nat, p: seq<Label>)
    requires Inv(g, m) && ENTRY in m.entry && m.entry[ENTRY] == ParamRegs(n)
    requires Walk(Finish(g), p) && p[0] == ENTRY
    ensures p[|p| - 1] in g.code && m.entry[p[|p| - 1]] <= ParamRegs(n) + WalkDefs(Finish(g), p[..|p| - 1])
    decreases |p|
  {
    hide LaidOut, Forward, Marked, Covered, Sane, Targets, OpsIn, Defs, UsesOk;
    EntryListed(g, m);
    if |p| > 1 {
      WalkPrefix(Finish(g), p);
      EntryDefined(g, m, n, p[..|p| - 1]);
      FinishOps(g, p[|p| - 2]);
      TargetListed(g, m, p[|p| - 2], p[|p| - 1]);
    }
  }

  lemma TargetListed(g: Cfg, m: Marks, l: Label, t: Label)
    requires Inv(g, m) && l in g.code && t in Targets(OpsIn(g, l))
    ensures t in g.code && t in m.entry && m.entry[t] <= m.entry[l] + Defs(OpsIn(g, l))
  {
    hide Targets, Defs, UsesOk;
  }

  lemma {:induction false} UsesAt(ops: seq<Op>, defined: set<nat>, i: nat)
    requires UsesOk(ops, defined) && i < |ops|
    ensures UsesOf(ops[i]) <= defined + Defs(ops[..i])
    decreases |ops|
  {
    if i == 0 {
      assert ops[..0] == [];
    } else {
      UsesAt(ops[1..], defined + DefOf(ops[0]), i - 1);
      assert ops[..i] == [ops[0]] + ops[1..][..i - 1];
      assert ops[..i][1..] == ops[1..][..i - 1];
    }
  }

  /** Whatever way control comes to an instruction, what it uses has been defined: by the caller, by
      a block passed on the way, or earlier in its own block. */
  lemma UsesDefined(src: seq<FnDef>, k: nat, p: seq<Label>, l: Label, i: nat)
    requires k < |src| && LoopOk(src[k].body, false)
    requires var f := CompileFn(src, k); WalkTo(f, p, l) && l in f.blocks && i < |FnOps(f, l)|
    ensures var f := CompileFn(src, k);
            UsesOf(FnOps(f, l)[i]) <= ParamRegs(|src[k].params|) + WalkDefs(f, p[..|p| - 1]) + Defs(FnOps(f, l)[..i])
  {
    hide Inv, BodyOf, FallsThrough, EndsInExit, Trace, Log, WalkDefs, Defs, ParamRegs, UsesOf, FnOps;
    var g, f := BodyOf(src, k).cfg, CompileFn(src, k);
    var m := BodyInv(src, k);
    EntryDefined(g, m, |src[k].params|, p);
    EntryListed(g, m);
    FinishedUses(g, m, l);
    UsesAt(FnOps(f, l), m.entry[l], i);
  }

  lemma FinishedUses(g: Cfg, m: Marks, l: Label)
    requires Inv(g, m) && l in g.code && ENTRY in g.code
    ensures l in m.entry && UsesOk(FnOps(Finish(g), l), m.entry[l])
  {
    hide LaidOut, Forward, Marked, Targets, Defs, Open, Closed;
    FinishOps(g, l);
    if l == ENTRY {
      var pre := OpsOf(AllocaPrefix(g.slots));
      QuietOps(pre);
      UsesMono(pre, {}, m.entry[l]);
      UsesAppend(pre, OpsIn(g, l), m.entry[l]);
      assert m.entry[l] + {} == m.entry[l];
    }
  }

  lemma {:induction false} DefinedWhere(ops: seq<Op>, r: nat) returns (i: nat)
    requires r in Defs(ops)
    ensures i < |ops| && r in DefOf(ops[i])
    decreases |ops|
  {
    if r in DefOf(ops[0]) {
      i := 0;
    } else {
      i := DefinedWhere(ops[1..], r);
      i := i + 1;
    }
  }

  lemma {:induction false} WalkDefinedWhere(f: Fn, p: seq<Label>, r: nat) returns (l: Label, i: nat)
    requires r in WalkDefs(f, p)
    ensures l in p && i < |FnOps(f, l)| && r in DefOf(FnOps(f, l)[i])
    decreases |p|
  {
    var n := |p| - 1;
    if r in Defs(FnOps(f, p[n])) {
      l := p[n];
      i := DefinedWhere(FnOps(f, l), r);
    } else {
      l, i := WalkDefinedWhere(f, p[..n], r);
    }
  }

  /** The SSA property: the one definition of a register dominates every use of it. */
  lemma DefinitionDominates(src: seq<FnDef>, k: nat, d: Label, j: nat, l: Label, i: nat, r: nat, p: seq<Label>)
    requires k < |src| && LoopOk(src[k].body, false)
    requires var f := CompileFn(src, k);
             d in f.blocks && j < |FnOps(f, d)| && r in DefOf(FnOps(f, d)[j]) &&
             l in f.blocks && i < |FnOps(f, l)| && r in UsesOf(FnOps(f, l)[i]) && WalkTo(f, p, l)
    ensures d in p[..|p| - 1] || (d == l && j < i)
  {
    hide CompileFn, LoopOk, UsesOf, WalkDefs, Defs, ParamRegs;
    var f := CompileFn(src, k);
    SingleDefinition(src, k, d, j, d, j, r);
    UsesDefined(src, k, p, l, i);
    if r in WalkDefs(f, p[..|p| - 1]) {
      var x, a := WalkDefinedWhere(f, p[..|p| - 1], r);
      SingleDefinition(src, k, d, j, x, a, r);
    } else {
      ParamsBelow(|src[k].params|, r);
      var a := DefinedWhere(FnOps(f, l)[..i], r);
      SingleDefinition(src, k, d, j, l, a, r);
    }
  }

  lemma ParamsBelow(n: nat, r: nat)
    ensures r in ParamRegs(n) <==> r < n
  {}

  // ----- regions -----

  /** The blocks a run of statements creates form a region: every branch it adds leaves from the old
      insertion block or from a new one, and goes to a new block or to a block of the enclosing loop. */
  lemma SingleEntryRegion(c: Code, ls: Locals, b: Builder, m: Marks, l: Label, t: Label)
    requires Begins(b.cfg, m, ls) && LoopOk(c, b.cfg.loop.InLoop?)
    requires Edge(Lower(c, ls, b).cfg, l, t) && !Edge(b.cfg, l, t)
    ensures l == b.cfg.cur || l.id >= b.cfg.nextLabel
    ensures t.id >= b.cfg.nextLabel || (b.cfg.loop.InLoop? &&
            (t == b.cfg.loop.continueBlock || t == b.cfg.loop.breakBlock))
  {
    hide Inv, LoopReady, ScopeOk, Lower, Trace, CallsOlder, CallBound, LoopOk, Edge, Log, Extended, Defined;
    var g, h := b.cfg, Lower(c, ls, b).cfg;
    var m' := LowerInv(c, ls, b, m);
    SomeBound(c, CallBound(c));
    TraceEmits(c, ls, b, CallBound(c), false);
    InvSane(g, m);
    LowerGrows(c, ls, b);
    InvLaidOut(g, m);
    InvLaidOut(h, m');
    ExtendedFacts(g, m, h, m');
    var tr := Trace(c, ls, b);
    var i := NewEdge(g, h, m.pending, l, t);
    LateIndex(g, h, m.pending, l, i);
    LogIndexAt(h, m.pending, l, i);
    var o := LogIndex(h, l, i) - |Log(g)|;
    OpsOfAppend(Log(g), tr);
    TargetsAt(OpsOf(tr), o);
  }

  lemma ExtendedFacts(g: Cfg, m: Marks, h: Cfg, m': Marks)
    requires Follows(g, m, h, m', false) || Follows(g, m, h, m', true)
    ensures m'.pending == m.pending && g.order <= h.order
    ensures forall l :: l in h.code ==> l in g.code || l.id >= g.nextLabel
  {}

  lemma {:induction false} TargetsAt(ops: seq<Op>, i: nat)
    requires i < |ops|
    ensures TargetsOf(ops[i]) <= Targets(ops) && CalleesOf(ops[i]) <= Callees(ops)
    decreases |ops|
  {
    if i > 0 {
      TargetsAt(ops[1..], i - 1);
    }
  }

  lemma {:induction false} TargetWhere(ops: seq<Op>, t: Label) returns (i: nat)
    requires t in Targets(ops)
    ensures i < |ops| && t in TargetsOf(ops[i])
    decreases |ops|
  {
    if t in TargetsOf(ops[0]) {
      i := 0;
    } else {
      i := TargetWhere(ops[1..], t);
      i := i + 1;
    }
  }

  /** The instruction behind a branch that lowering added. */
  lemma NewEdge(g: Cfg, h: Cfg, pending: set<Label>, l: Label, t: Label) returns (i: nat)
    requires LaidOut(g, pending) && LaidOut(h, pending) && Grows(g, h) && Sane(g)
    requires forall x :: x in h.code ==> x in g.code || x.id >= g.nextLabel
    requires Edge(h, l, t) && !Edge(g, l, t)
    ensures l in h.order && i < |OpsIn(h, l)| && t in TargetsOf(OpsIn(h, l)[i])
    ensures if l in g.code then l == g.cur && i >= |g.code[l]| else l.id >= g.nextLabel
  {
    hide Open, Closed, Targets, OpsOf, NoDup;
    NoTargets();
    if l in g.code {
      assert l == g.cur;
      i := SuffixTarget(g.code[l], h.code[l], t);
    } else {
      i := TargetWhere(OpsIn(h, l), t);
    }
  }

  lemma SuffixTarget(xs: seq<Ins>, ys: seq<Ins>, t: Label) returns (i: nat)
    requires xs <= ys && t in Targets(OpsOf(ys)) && t !in Targets(OpsOf(xs))
    ensures |xs| <= i < |ys| && t in TargetsOf(OpsOf(ys)[i])
  {
    hide Targets;
    var n := |xs|;
    assert ys == xs + ys[n..];
    OpsOfAppend(xs, ys[n..]);
    DefsAppend(OpsOf(xs), OpsOf(ys[n..]));
    i := TargetWhere(OpsOf(ys[n..]), t);
    i := i + n;
  }

  lemma {:induction false} OffsetPrefix(xs: seq<Label>, ys: seq<Label>, code: Blocks, l: Label)
    requires xs <= ys && l in xs && NoDup(ys)
    ensures Offset(ys, code, l) == Offset(xs, code, l)
    decreases |ys|
  {
    if |xs| < |ys| {
      var n := |ys| - 1;
      var i := Place(xs, l);
      assert ys[i] == xs[i] == l;
      assert l != ys[n];
      assert xs <= ys[..n];
      OffsetPrefix(xs, ys[..n], code, l);
    } else {
      assert xs == ys;
    }
  }

  /** What is emitted later comes later in the log. */
  lemma LateIndex(g: Cfg, h: Cfg, pending: set<Label>, l: Label, i: nat)
    requires LaidOut(g, pending) && LaidOut(h, pending) && Grows(g, h) && g.order <= h.order && l in h.order
    requires if l in g.code then l == g.cur && i >= |g.code[l]| else true
    ensures LogIndex(h, l, i) >= |Log(g)|
  {
    hide Open, Closed, Targets;
    var n := |g.order| - 1;
    ListShape(g, pending);
    OffsetPrefix(g.order, h.order, h.code, g.cur);
    FlatSame(g.order[..n], g.code, h.code);
    if l !in g.code {
      PlacePrefix(g.order, h.order, g.cur);
      PlaceLate(g.order, h.order, l);
      OffsetApart(h.order, h.code, g.cur, l);
    }
  }

  lemma {:induction false} PlaceLate(xs: seq<Label>, ys: seq<Label>, l: Label)
    requires xs <= ys && l in ys && l !in xs
    ensures Place(ys, l) >= |xs|
    decreases |xs|
  {
    if xs != [] {
      assert xs[0] == ys[0] && xs[1..] <= ys[1..];
      PlaceLate(xs[1..], ys[1..], l);
    }
  }

  lemma InvLaidOut(g: Cfg, m: Marks)
    requires Inv(g, m)
    ensures LaidOut(g, m.pending)
  {}

  // ----- calls -----

  lemma CalleeOlder(src: seq<FnDef>, k: nat, l: Label, i: nat)
    requires k < |src| && LoopOk(src[k].body, false) && CallsOlder(src[k].body, k)
    requires var f := CompileFn(src, k); l in f.blocks && i < |FnOps(f, l)| && FnOps(f, l)[i].ICall?
    ensures FnOps(CompileFn(src, k), l)[i].fn < k
  {
    hide Inv, LaidOut, Ascends, BodyOf, Callees, Trace, Log, CallsOlder, FallsThrough, EndsInExit, LoopOk;
    var g := BodyOf(src, k).cfg;
    var m := BodyLog(src, k, k);
    FinishedListed(g, m, l);
    FinishedAt(g, l, i);
    LogIndexAt(g, {}, l, i - Shift(g, l));
    TargetsAt(OpsOf(Log(g)), LogIndex(g, l, i - Shift(g, l)));
  }

  function Depth(ks: Stack): nat {
    match ks
    case Bottom => 0
    case Push(_, rest) => 1 + Depth(rest)
  }

  /** Functions on the stack were created in stack order, the newest at the bottom. */
  ghost predicate Descending(ks: Stack, n: nat) {
    match ks
    case Bottom => true
    case Push(fr, rest) => fr.fn < n && Descending(rest, n) && (rest.Push? ==> fr.fn < rest.top.fn)
  }

  ghost predicate ProgramOlder(src: seq<FnDef>) {
    forall k :: 0 <= k < |src| ==> LoopOk(src[k].body, false) && CallsOlder(src[k].body, k)
  }

  lemma {:induction false} DescendingStep(src: seq<FnDef>, s: State)
    requires ProgramOlder(src) && s.Running? && Descending(s.stack, |src|)
    ensures Step(Compile(src), s).Running? ==> Descending(Step(Compile(src), s).stack, |src|)
  {
    hide CompileFn, LoopOk, CallsOlder, StepOp, OpVal, OpVals;
    if s.stack.Push? && Fetch(Compile(src), s.stack.top).Some? {
      var fr := s.stack.top;
      var op := Fetch(Compile(src), fr).value;
      assert Compile(src)[fr.fn] == CompileFn(src, fr.fn);
      assert op == FnOps(CompileFn(src, fr.fn), fr.block)[fr.pc];
      if op.ICall? {
        CalleeOlder(src, fr.fn, fr.block, fr.pc);
      }
    }
  }

  lemma {:induction false} DescendingRun(src: seq<FnDef>, n: nat, s: State)
    requires ProgramOlder(src) && (s.Running? ==> Descending(s.stack, |src|))
    ensures Steps(Compile(src), n, s).Running? ==> Descending(Steps(Compile(src), n, s).stack, |src|)
    decreases n
  {
    hide ProgramOlder, Descending;
    if n > 0 {
      if s.Running? {
        DescendingStep(src, s);
      }
      DescendingRun(src, n - 1, Step(Compile(src), s));
    }
  }

  lemma {:induction false} DepthBound(ks: Stack, n: nat)
    requires Descending(ks, n)
    ensures Depth(ks) <= n && (ks.Push? ==> Depth(ks) <= n - ks.top.fn)
  {
    match ks
    case Bottom =>
    case Push(_, rest) => DepthBound(rest, n);
  }

  /** Functions can only call functions built before them, so however a run goes, right or wrong, its
      stack is never deeper than the number of functions. */
  lemma CallDepthBounded(src: seq<FnDef>, j: nat, regs: Regs, sp: nat, mem: Mem, n: nat)
    requires ProgramOlder(src) && j < |src|
    ensures var s := Steps(Compile(src), n, Running(Push(Frame(j, ENTRY, 0, regs, map[], sp, sp, 0), Bottom), mem));
            s.Running? ==> Depth(s.stack) <= |src|
  {
    var s0 := Running(Push(Frame(j, ENTRY, 0, regs, map[], sp, sp, 0), Bottom), mem);
    DescendingRun(src, n, s0);
    var s := Steps(Compile(src), n, s0);
    if s.Running? {
      DepthBound(s.stack, |src|);
    }
  }
}
