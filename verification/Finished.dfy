/** What every finished function looks like: layout, reachability, loops, and SSA form. */
module Finished {
  import opened Types
  import opened Source
  import opened Ir
  import opened Lowering
  import opened Shapes
  import opened Growth
  import opened Flow
  import opened Layout
  import opened Structure

  function FnOps(f: Fn, l: Label): seq<Op> { if l in f.blocks then OpsOf(f.blocks[l]) else [] }

  ghost predicate FnEdge(f: Fn, l: Label, t: Label) { l in f.blocks && t in Targets(FnOps(f, l)) }

  ghost predicate Walk(f: Fn, p: seq<Label>) { |p| > 0 && forall i :: 0 <= i < |p| - 1 ==> FnEdge(f, p[i], p[i + 1]) }

  /** A walk from the entry block to l. */
  ghost predicate WalkTo(f: Fn, p: seq<Label>, l: Label) { Walk(f, p) && p[0] == ENTRY && p[|p| - 1] == l }

  function LastBlock(f: Fn): Label { if f.order == [] then ENTRY else f.order[|f.order| - 1] }

  /** Arguments arrive in the first registers. */
  function ParamRegs(n: nat): (s: set<nat>)
    ensures forall i: nat :: i in s <==> i < n
  {
    if n == 0 then {} else ParamRegs(n - 1) + {n - 1}
  }

  // ----- the entry block's allocas -----

  lemma {:induction false} QuietOps(ops: seq<Op>)
    requires forall i :: 0 <= i < |ops| ==> ops[i].IAlloca?
    ensures Open(ops) && Targets(ops) == {} && Defs(ops) == {} && UsesOk(ops, {})
    decreases |ops|
  {
    if ops != [] {
      QuietOps(ops[1..]);
    }
  }

  lemma FinishOps(g: Cfg, l: Label)
    requires ENTRY in g.code && l in g.code
    ensures FnOps(Finish(g), l) == (if l == ENTRY then OpsOf(AllocaPrefix(g.slots)) else []) + OpsIn(g, l)
    ensures Targets(FnOps(Finish(g), l)) == Targets(OpsIn(g, l)) && Defs(FnOps(Finish(g), l)) == Defs(OpsIn(g, l))
    ensures Closed(OpsIn(g, l)) ==> Closed(FnOps(Finish(g), l))
    ensures Open(OpsIn(g, l)) ==> Open(FnOps(Finish(g), l))
  {
    if l == ENTRY {
      var pre := OpsOf(AllocaPrefix(g.slots));
      OpsOfAppend(AllocaPrefix(g.slots), g.code[ENTRY]);
      QuietOps(pre);
      DefsAppend(pre, OpsIn(g, l));
      OpenAppend(pre, OpsIn(g, l));
    }
  }

  // ----- from the builder's invariants -----

  ghost predicate BodyFacts(f: FnDef, g: Cfg, m: Marks) {
    Inv(g, m) && m.pending == {} && ENTRY in m.entry && m.entry[ENTRY] == ParamRegs(|f.params|) &&
    (Live(g, m) <==> FallsThrough(f.body)) && g.exited == EndsInExit(f.body)
  }

  lemma BodyInv(src: seq<FnDef>, k: nat) returns (m: Marks)
    requires k < |src| && LoopOk(src[k].body, false)
    ensures BodyFacts(src[k], BodyOf(src, k).cfg, m)
    ensures Log(BodyOf(src, k).cfg) == Trace(src[k].body, Params(|src[k].params|),
            BeginFunction(src[k], Before(src, k)))
  {
    hide Inv, Begins, BeginFunction, Lower, Trace, Log, FallsThrough, EndsInExit, Params;
    var n := |src[k].params|;
    var b := BeginFunction(src[k], Before(src, k));
    var m0 := Marks({}, {ENTRY}, map[ENTRY := ParamRegs(n)]);
    BeforeLoop(src, k);
    StartInv(src[k], Before(src, k), m0);
    m := LowerInv(src[k].body, Params(n), b, m0);
  }

  lemma StartInv(f: FnDef, b0: Builder, m: Marks)
    requires b0.cfg.loop == NoLoop && m == Marks({}, {ENTRY}, map[ENTRY := ParamRegs(|f.params|)])
    ensures var b := BeginFunction(f, b0);
            Begins(b.cfg, m, Params(|f.params|)) && b.cfg.loop == NoLoop && Live(b.cfg, m) && Log(b.cfg) == []
  {
    hide Inv, ScopeOk;
    var g := BeginFunction(f, b0).cfg;
    StartGraph(g, m, |f.params|);
    StartScope(|f.params|, m);
  }

  lemma StartGraph(g: Cfg, m: Marks, n: nat)
    requires g.code == map[ENTRY := []] && g.order == [ENTRY] && g.cur == ENTRY && g.nextLabel == 1 && !g.exited
    requires m == Marks({}, {ENTRY}, map[ENTRY := ParamRegs(n)])
    ensures Inv(g, m) && Defined(g, m.entry) == ParamRegs(n) && Log(g) == []
  {
    assert OpsIn(g, ENTRY) == [];
    assert Targets([]) == {} && Defs([]) == {};
    assert g.order[..0] == [];
    assert Flat(g.order, g.code) == Flat(g.order[..0], g.code) + [];
    assert Path(g, [ENTRY]);
    assert Reachable(g, ENTRY);
  }

  lemma StartScope(n: nat, m: Marks)
    ensures ScopeOk(Params(n).vals, ParamRegs(n))
  {}

  // ----- layout -----

  /** Every block is listed once, the entry first. Every block ends in its only terminator, but for
      the last one when the body does not end in an exit. Branches go to listed blocks: forward in
      the list, or back to a loop header from between that loop's first body block and its end. */
  ghost predicate WellFormed(f: Fn, exits: bool) {
    f.order != [] && f.order[0] == ENTRY && NoDup(f.order) && (forall l :: l in f.blocks <==> l in f.order) &&
    (forall l :: l in f.order && l != LastBlock(f) ==> Closed(FnOps(f, l))) &&
    (if exits then Closed(FnOps(f, LastBlock(f))) else Open(FnOps(f, LastBlock(f)))) &&
    (forall l, t :: FnEdge(f, l, t) ==> t in f.order && Onward(f.order, l, t))
  }

  lemma FunctionWellFormed(src: seq<FnDef>, k: nat)
    requires k < |src| && LoopOk(src[k].body, false)
    ensures WellFormed(CompileFn(src, k), EndsInExit(src[k].body))
  {
    hide Inv, EndsInExit, FallsThrough;
    var g := BodyOf(src, k).cfg;
    var m := BodyInv(src, k);
    GraphWellFormed(g, m);
  }

  lemma GraphWellFormed(g: Cfg, m: Marks)
    requires Inv(g, m) && m.pending == {}
    ensures WellFormed(Finish(g), g.exited)
  {
    hide Marked, Covered, Sane, Open, Closed, Targets, Onward;
    var f := Finish(g);
    assert ENTRY in g.order && ENTRY in g.code;
    forall l | l in g.code
      ensures Targets(FnOps(f, l)) == Targets(OpsIn(g, l))
      ensures Closed(OpsIn(g, l)) ==> Closed(FnOps(f, l))
      ensures Open(OpsIn(g, l)) ==> Open(FnOps(f, l))
    {
      FinishOps(g, l);
    }
  }

  // ----- loops -----

  /** Every cycle in the graph passes through a loop header. */
  lemma CyclesMeetHeaders(src: seq<FnDef>, k: nat, p: seq<Label>)
    requires k < |src| && LoopOk(src[k].body, false)
    requires Walk(CompileFn(src, k), p) && |p| >= 2 && p[0] == p[|p| - 1]
    ensures exists i :: 0 <= i < |p| - 1 && p[i].kind == WhileContinue
  {
    hide CompileFn, WellFormed;
    FunctionWellFormed(src, k);
    if forall i :: 0 <= i < |p| - 1 ==> p[i].kind != WhileContinue {
      HeaderlessClimbs(CompileFn(src, k), EndsInExit(src[k].body), p, |p| - 1);
      assert false;
    }
  }

  lemma {:induction false} HeaderlessClimbs(f: Fn, exits: bool, p: seq<Label>, n: nat)
    requires WellFormed(f, exits) && Walk(f, p) && 1 <= n < |p|
    requires forall i :: 0 <= i <= n ==> p[i].kind != WhileContinue
    ensures Place(f.order, p[0]) < Place(f.order, p[n])
    decreases n
  {
    hide Place, NoDup, Closed, Open, Targets;
    assert FnEdge(f, p[n - 1], p[n]);
    assert Onward(f.order, p[n - 1], p[n]);
    if n > 1 {
      HeaderlessClimbs(f, exits, p, n - 1);
    }
  }

  // ----- reachability -----

  lemma {:induction false} WalkMarked(g: Cfg, m: Marks, p: seq<Label>, n: nat)
    requires Inv(g, m) && Walk(Finish(g), p) && p[0] == ENTRY && n < |p|
    ensures p[n] in m.reached
    decreases n
  {
    hide LaidOut, Forward, Covered, Targets, OpsIn;
    if n > 0 {
      WalkMarked(g, m, p, n - 1);
      assert FnEdge(Finish(g), p[n - 1], p[n]);
      EntryListed(g, m);
      FinishOps(g, p[n - 1]);
    }
  }

  lemma EntryListed(g: Cfg, m: Marks)
    requires Inv(g, m)
    ensures ENTRY in g.code && m.reached <= g.code.Keys
  {}

  lemma MarkedWalk(g: Cfg, m: Marks, l: Label) returns (p: seq<Label>)
    requires Inv(g, m) && l in m.reached
    ensures WalkTo(Finish(g), p, l)
  {
    hide LaidOut, Forward, Covered, Targets, OpsIn;
    EntryListed(g, m);
    assert Reachable(g, l);
    p :| Path(g, p) && p[|p| - 1] == l;
    forall i | 0 <= i < |p| - 1
      ensures FnEdge(Finish(g), p[i], p[i + 1])
    {
      assert Edge(g, p[i], p[i + 1]);
      FinishOps(g, p[i]);
    }
  }

  /** Control can come to the end of an unterminated block. */
  ghost predicate CanRunOff(f: Fn) { exists p :: WalkTo(f, p, LastBlock(f)) && Open(FnOps(f, LastBlock(f))) }

  /** The final insertion block is unterminated and reachable exactly when some path of the body
      falls through: merge blocks left behind by arms that all exit are dead, however nested. */
  lemma RunsOffIff(src: seq<FnDef>, k: nat)
    requires k < |src| && LoopOk(src[k].body, false)
    ensures CanRunOff(CompileFn(src, k)) <==> FallsThrough(src[k].body)
  {
    hide Inv, Open, FallsThrough, EndsInExit, Trace, Log;
    var g := BodyOf(src, k).cfg;
    var m := BodyInv(src, k);
    var f := CompileFn(src, k);
    GraphWellFormed(g, m);
    LastIs(g, m);
    if CanRunOff(f) {
      var p :| WalkTo(f, p, LastBlock(f)) && Open(FnOps(f, LastBlock(f)));
      WalkMarked(g, m, p, |p| - 1);
      OpenNotClosed(FnOps(f, LastBlock(f)));
    }
    if FallsThrough(src[k].body) {
      var p := MarkedWalk(g, m, g.cur);
      assert WalkTo(f, p, LastBlock(f)) && Open(FnOps(f, LastBlock(f)));
    }
  }

  lemma LastIs(g: Cfg, m: Marks)
    requires Inv(g, m)
    ensures LastBlock(Finish(g)) == g.cur
  {}

  lemma OpenNotClosed(ops: seq<Op>)
    requires Open(ops)
    ensures !Closed(ops)
  {}

  /** The source agrees: only a lambda with such a path completes normally. */
  lemma {:induction false} NormalFallsThrough(src: seq<FnDef>, k: nat, fuel: nat, c: Code, st: SState)
    requires Run(src, k, fuel, c, st).Normal?
    ensures FallsThrough(c)
    decreases k, fuel, c, 1
  {
    match c
    case Done =>
    case Act(a, next) =>
      assert RunAct(src, k, fuel, a, next, st).Normal?;
      NormalFallsThrough(src, k, fuel, next, Do(a, st).value);
    case Call(fn, args, next) => CallFalls(src, k, fuel, fn, args, next, st);
    case If(e, t, f, next) =>
      assert RunIf(src, k, fuel, e, t, f, next, st).Normal?;
      var arm := if EvalTest(e, st.env).value then t else f;
      ArmFalls(src, k, fuel, c, arm, next, st);
    case IfThen(e, t, next) =>
      assert RunIfThen(src, k, fuel, e, t, next, st).Normal?;
      if EvalTest(e, st.env).value { ArmFalls(src, k, fuel, c, t, next, st); }
      else { NormalFallsThrough(src, k, fuel, next, st); }
    case While(cnd, body, next) => WhileFalls(src, k, fuel, cnd, body, next, st);
    case _ =>
  }

  lemma {:induction false} ArmFalls(src: seq<FnDef>, k: nat, fuel: nat, whole: Code, arm: Code, next: Code, st: SState)
    requires arm < whole && next < whole && AfterArm(src, k, fuel, Run(src, k, fuel, arm, st), next, st).Normal?
    ensures FallsThrough(arm) && FallsThrough(next)
    decreases k, fuel, whole, 0
  {
    NormalFallsThrough(src, k, fuel, arm, st);
    var a := Run(src, k, fuel, arm, st);
    NormalFallsThrough(src, k, fuel, next, Leave(st, a.vars, a.heap));
  }

  lemma {:induction false} CallFalls(src: seq<FnDef>, k: nat, fuel: nat, fn: FnRef, args: seq<Expr>, next: Code,
      st: SState)
    requires RunCall(src, k, fuel, fn, args, next, st).Normal?
    ensures FallsThrough(next)
    decreases k, fuel, Call(fn, args, next), 0
  {
    var vs := EvalArgs(args, st.env).value;
    var a := Run(src, fn.idx, fuel, src[fn.idx].body, SState(vs, [], st.heap));
    NormalFallsThrough(src, k, fuel, next, AfterCall(a.result, a.heap, st));
  }

  lemma {:induction false} WhileFalls(src: seq<FnDef>, k: nat, fuel: nat, cnd: Cond, body: Code, next: Code, st: SState)
    requires RunWhile(src, k, fuel, cnd, body, next, st).Normal?
    ensures FallsThrough(next)
    decreases k, fuel, While(cnd, body, next), 0
  {
    if EvalCond(cnd, st) == Some(false) {
      NormalFallsThrough(src, k, fuel, next, st);
    } else {
      match Run(src, k, fuel - 1, body, st)
      case Normal(vars, heap) => WhileFalls(src, k, fuel - 1, cnd, body, next, Leave(st, vars, heap));
      case Continued(vars, heap) => WhileFalls(src, k, fuel - 1, cnd, body, next, Leave(st, vars, heap));
      case Broke(vars, heap) => NormalFallsThrough(src, k, fuel, next, Leave(st, vars, heap));
      case _ =>
    }
  }
}
