/** Invariants of the control-flow graph under construction, and how the builder's two kinds of
    step keep them: appending straight-line code, and ending a block to move on to another. */
module Layout {
  import opened Ir
  import opened Lowering
  import opened Shapes
  import opened Flow

  /** Bookkeeping beside the graph: blocks created but not yet in the function's list, blocks known
      to be reachable, and the registers defined whenever control enters a block. */
  datatype Marks = Marks(pending: set<Label>, reached: set<Label>, entry: map<Label, set<nat>>)

  function OpsIn(g: Cfg, l: Label): seq<Op> { if l in g.code then OpsOf(g.code[l]) else [] }

  // ----- the block list -----

  /** Position in the block list; a block not yet listed comes after everything. */
  function Place(order: seq<Label>, l: Label): (n: nat)
    ensures n <= |order|
    ensures l in order <==> n < |order|
    ensures n < |order| ==> order[n] == l
  {
    if order == [] then 0 else if order[0] == l then 0 else 1 + Place(order[1..], l)
  }

  predicate NoDup(order: seq<Label>) { forall i, j :: 0 <= i < j < |order| ==> order[i] != order[j] }

  /** The insertion block is last in the list, and terminated exactly when the builder says it has
      exited; every other listed block ends in its only terminator; branches go to listed or
      pending blocks, and pending blocks are empty. */
  ghost predicate LaidOut(g: Cfg, pending: set<Label>) {
    g.order != [] && g.order[0] == ENTRY && g.order[|g.order| - 1] == g.cur && NoDup(g.order) &&
    (forall l :: l in g.code <==> l in g.order || l in pending) &&
    (forall l :: l in pending ==> l !in g.order && OpsIn(g, l) == []) &&
    (forall l :: l in g.order && l != g.cur ==> Closed(OpsIn(g, l))) &&
    (if g.exited then Closed(OpsIn(g, g.cur)) else Open(OpsIn(g, g.cur))) &&
    (forall l :: l in g.code ==> Targets(OpsIn(g, l)) <= g.code.Keys)
  }

  function HeadOf(t: Label): Label { Label(WhileIteration, t.id + 1) }
  function ExitOf(t: Label): Label { Label(WhileBreak, t.id + 2) }

  /** A branch goes forward in the list, or back to the header of a loop it is laid out in. */
  predicate Onward(order: seq<Label>, l: Label, t: Label) {
    Place(order, l) < Place(order, t) ||
    (t.kind == WhileContinue && Place(order, t) < Place(order, HeadOf(t)) <= Place(order, l) < Place(order, ExitOf(t)))
  }

  ghost predicate Forward(g: Cfg) {
    forall l, t :: l in g.order && t in Targets(OpsIn(g, l)) ==> Onward(g.order, l, t)
  }

  // ----- reachability -----

  ghost predicate Edge(g: Cfg, l: Label, t: Label) { l in g.code && t in Targets(OpsIn(g, l)) }

  ghost predicate Path(g: Cfg, p: seq<Label>) {
    |p| > 0 && p[0] == ENTRY && forall i :: 0 <= i < |p| - 1 ==> Edge(g, p[i], p[i + 1])
  }

  ghost predicate Reachable(g: Cfg, l: Label) { exists p :: Path(g, p) && p[|p| - 1] == l }

  /** The marked blocks are exactly the reachable ones: closed under branches, and each has a path. */
  ghost predicate Marked(g: Cfg, reached: set<Label>) {
    ENTRY in reached && reached <= g.code.Keys &&
    (forall l :: l in reached ==> Targets(OpsIn(g, l)) <= reached) &&
    (forall l :: l in reached ==> Reachable(g, l))
  }

  // ----- definitions before uses -----

  /** Along every branch the registers promised at its target are defined, and no block uses one
      that is neither promised at its start nor defined earlier in it. */
  ghost predicate Covered(g: Cfg, entry: map<Label, set<nat>>) {
    entry.Keys == g.code.Keys &&
    (forall l :: l in g.code ==> UsesOk(OpsIn(g, l), entry[l])) &&
    (forall l, t :: l in g.code && t in Targets(OpsIn(g, l)) && t in entry ==> entry[t] <= entry[l] + Defs(OpsIn(g, l)))
  }

  /** Registers defined at the insertion point. */
  ghost function Defined(g: Cfg, entry: map<Label, set<nat>>): set<nat> {
    (if g.cur in entry then entry[g.cur] else {}) + Defs(OpsIn(g, g.cur))
  }

  // ----- the loop in force -----

  /** break_ and continue_ have somewhere to go. */
  ghost predicate LoopReady(g: Cfg, m: Marks) {
    g.loop.InLoop? ==>
      var c, x := g.loop.continueBlock, g.loop.breakBlock;
      c.kind == WhileContinue && c in g.order && HeadOf(c) in g.order &&
      Place(g.order, c) < Place(g.order, HeadOf(c)) && x == ExitOf(c) && x in m.pending &&
      c in m.entry && x in m.entry && m.entry[c] <= Defined(g, m.entry) && m.entry[x] <= Defined(g, m.entry) &&
      (g.cur in m.reached ==> c in m.reached && x in m.reached)
  }

  ghost predicate Inv(g: Cfg, m: Marks) {
    LaidOut(g, m.pending) && Forward(g) && Marked(g, m.reached) && Covered(g, m.entry) && Sane(g)
  }

  // ----- positions -----

  lemma {:induction false} PlaceIs(order: seq<Label>, i: nat)
    requires NoDup(order) && i < |order|
    ensures Place(order, order[i]) == i
  {
    var j := Place(order, order[i]);
    assert order[j] == order[i];
  }

  lemma {:induction false} PlaceAppend(order: seq<Label>, x: Label, l: Label)
    ensures Place(order + [x], l) == if l in order then Place(order, l) else if l == x then |order| else |order| + 1
    decreases |order|
  {
    if order == [] {
      assert [x][1..] == [];
    } else {
      assert (order + [x])[1..] == order[1..] + [x];
      PlaceAppend(order[1..], x, l);
    }
  }

  lemma OnwardAppend(order: seq<Label>, x: Label, l: Label, t: Label)
    requires Onward(order, l, t) && l in order
    ensures Onward(order + [x], l, t)
  {
    PlaceAppend(order, x, l);
    PlaceAppend(order, x, t);
    PlaceAppend(order, x, HeadOf(t));
    PlaceAppend(order, x, ExitOf(t));
  }

  // ----- the emission log -----

  lemma {:induction false} FlatSame(order: seq<Label>, c: Blocks, d: Blocks)
    requires forall l :: l in order ==> l in c && l in d && d[l] == c[l]
    ensures Flat(order, d) == Flat(order, c)
    decreases |order|
  {
    if order != [] {
      FlatSame(order[..|order| - 1], c, d);
    }
  }

  /** Whatever is emitted goes to the end of the last block, so layout order is emission order. */
  lemma LogGrows(g: Cfg, h: Cfg, pending: set<Label>, ins: seq<Ins>)
    requires LaidOut(g, pending) && (forall x :: x in g.code ==> x in h.code)
    requires forall x :: x in g.code ==> h.code[x] == if x == g.cur then g.code[x] + ins else g.code[x]
    requires h.order == g.order || (h.order == g.order + [h.cur] && h.cur in h.code && h.code[h.cur] == [])
    ensures Log(h) == Log(g) + ins
  {
    hide LaidOut, Targets, Open, Closed;
    var n := |g.order| - 1;
    ListShape(g, pending);
    FlatSame(g.order[..n], g.code, h.code);
    assert Flat(g.order, h.code) == Flat(g.order[..n], h.code) + h.code[g.cur];
    if h.order != g.order {
      assert h.order[..|h.order| - 1] == g.order;
      assert Flat(h.order, h.code) == Flat(g.order, h.code) + [];
    }
  }

  lemma ListShape(g: Cfg, pending: set<Label>)
    requires LaidOut(g, pending)
    ensures g.order != [] && g.order[|g.order| - 1] == g.cur && forall l :: l in g.order ==> l in g.code
    ensures g.cur !in g.order[..|g.order| - 1]
  {}

  // ----- appending straight-line code -----

  /** A step that appends `ops` to the insertion block. */
  ghost predicate Appends(g: Cfg, h: Cfg, ops: seq<Op>) {
    g.cur in g.code && h.code.Keys == g.code.Keys && h.cur == g.cur && h.order == g.order &&
    h.nextLabel == g.nextLabel &&
    OpsIn(h, g.cur) == OpsIn(g, g.cur) + ops && forall l :: l in g.code && l != g.cur ==> h.code[l] == g.code[l]
  }

  lemma OpenAppend(xs: seq<Op>, ys: seq<Op>)
    requires Open(xs)
    ensures Open(ys) ==> Open(xs + ys)
    ensures Closed(ys) ==> Closed(xs + ys)
  {
    if Closed(ys) {
      assert (xs + ys)[..|xs + ys| - 1] == xs + ys[..|ys| - 1];
    }
  }

  /** Paths survive when branches are only added. */
  lemma ReachableGrows(g: Cfg, h: Cfg, l: Label)
    requires Reachable(g, l) && forall a, b :: Edge(g, a, b) ==> Edge(h, a, b)
    ensures Reachable(h, l)
  {
    var p :| Path(g, p) && p[|p| - 1] == l;
    assert Path(h, p);
  }

  lemma ReachableStep(g: Cfg, l: Label, t: Label)
    requires Reachable(g, l) && Edge(g, l, t)
    ensures Reachable(g, t)
  {
    var p :| Path(g, p) && p[|p| - 1] == l;
    var q := p + [t];
    forall i | 0 <= i < |q| - 1
      ensures Edge(g, q[i], q[i + 1])
    {
      if i == |p| - 1 {
        assert q[i] == l && q[i + 1] == t;
      }
    }
    assert Path(g, q) && q[|q| - 1] == t;
  }

  /** Straight-line code, or an exit, at the insertion point. */
  lemma AppendInv(g: Cfg, h: Cfg, ops: seq<Op>, m: Marks)
    requires Inv(g, m) && !g.exited && Appends(g, h, ops)
    requires if h.exited then Closed(ops) else Open(ops)
    requires Targets(ops) <= g.code.Keys && (g.cur in m.reached ==> Targets(ops) <= m.reached)
    requires forall t :: t in Targets(ops) ==> Onward(g.order, g.cur, t)
    requires UsesOk(ops, Defined(g, m.entry))
    requires forall t :: t in Targets(ops) && t in m.entry ==> m.entry[t] <= Defined(g, m.entry)
    ensures Inv(h, m) && Defined(h, m.entry) == Defined(g, m.entry) + Defs(ops)
  {
    hide Targets, Defs, UsesOk, OpsIn, Forward, Marked, Onward;
    DefsAppend(OpsIn(g, g.cur), ops);
    OpenAppend(OpsIn(g, g.cur), ops);
    UsesAppend(OpsIn(g, g.cur), ops, m.entry[g.cur]);
    AppendLaidOut(g, h, ops, m.pending);
    AppendForward(g, h, ops);
    AppendMarked(g, h, ops, m.reached);
    AppendCovered(g, h, ops, m.entry);
  }

  lemma Untouched(g: Cfg, h: Cfg, ops: seq<Op>, l: Label)
    requires Appends(g, h, ops) && l in g.code && l != g.cur
    ensures OpsIn(h, l) == OpsIn(g, l)
  {}

  lemma AppendLaidOut(g: Cfg, h: Cfg, ops: seq<Op>, pending: set<Label>)
    requires LaidOut(g, pending) && !g.exited && Appends(g, h, ops)
    requires if h.exited then Closed(OpsIn(h, g.cur)) else Open(OpsIn(h, g.cur))
    requires Targets(ops) <= g.code.Keys && Targets(OpsIn(h, g.cur)) == Targets(OpsIn(g, g.cur)) + Targets(ops)
    ensures LaidOut(h, pending)
  {
    forall l | l in g.code && l != g.cur
      ensures OpsIn(h, l) == OpsIn(g, l)
    {
      Untouched(g, h, ops, l);
    }
  }

  lemma AppendForward(g: Cfg, h: Cfg, ops: seq<Op>)
    requires Forward(g) && Appends(g, h, ops) && (forall l :: l in g.order ==> l in g.code)
    requires Targets(OpsIn(h, g.cur)) == Targets(OpsIn(g, g.cur)) + Targets(ops)
    requires forall t :: t in Targets(ops) ==> Onward(g.order, g.cur, t)
    ensures Forward(h)
  {
    forall l, t | l in h.order && t in Targets(OpsIn(h, l))
      ensures Onward(h.order, l, t)
    {
      if l != g.cur {
        Untouched(g, h, ops, l);
      }
    }
  }

  lemma AppendMarked(g: Cfg, h: Cfg, ops: seq<Op>, reached: set<Label>)
    requires Marked(g, reached) && Appends(g, h, ops)
    requires Targets(OpsIn(h, g.cur)) == Targets(OpsIn(g, g.cur)) + Targets(ops)
    requires g.cur in reached ==> Targets(ops) <= reached
    ensures Marked(h, reached)
  {
    forall l | l in g.code && l != g.cur
      ensures OpsIn(h, l) == OpsIn(g, l)
    {
      Untouched(g, h, ops, l);
    }
    forall l | l in reached
      ensures Reachable(h, l)
    {
      ReachableGrows(g, h, l);
    }
  }

  lemma AppendCovered(g: Cfg, h: Cfg, ops: seq<Op>, entry: map<Label, set<nat>>)
    requires Covered(g, entry) && Appends(g, h, ops)
    requires Targets(OpsIn(h, g.cur)) == Targets(OpsIn(g, g.cur)) + Targets(ops)
    requires Defs(OpsIn(h, g.cur)) == Defs(OpsIn(g, g.cur)) + Defs(ops)
    requires UsesOk(OpsIn(h, g.cur), entry[g.cur])
    requires forall t :: t in Targets(ops) && t in entry ==> entry[t] <= Defined(g, entry)
    ensures Covered(h, entry)
  {
    forall l | l in g.code && l != g.cur
      ensures OpsIn(h, l) == OpsIn(g, l)
    {
      Untouched(g, h, ops, l);
    }
  }

  // ----- ending a block and moving on -----

  /** A step that creates the blocks `made`, ends the insertion block with `ops` unless it has
      exited, and goes on in block l, which it adds to the list. */
  ghost predicate Hops(g: Cfg, h: Cfg, ops: seq<Op>, made: set<Label>, l: Label) {
    g.cur in g.code && h.code.Keys == g.code.Keys + made && h.cur == l && h.order == g.order + [l] && !h.exited &&
    g.nextLabel <= h.nextLabel && (forall x :: x in made ==> g.nextLabel <= x.id < h.nextLabel && h.code[x] == []) &&
    OpsIn(h, g.cur) == OpsIn(g, g.cur) + ops && forall x :: x in g.code && x != g.cur ==> h.code[x] == g.code[x]
  }

  /** The marks after a hop. */
  ghost function Hopped(g: Cfg, ops: seq<Op>, made: set<Label>, l: Label, m: Marks): Marks {
    Marks(m.pending + made - {l},
          if g.cur in m.reached then m.reached + Targets(ops) else m.reached,
          m.entry + map x | x in made :: Defined(g, m.entry))
  }

  /** Where a hop may branch to: blocks not yet listed, or back to the loop's header. */
  ghost predicate HopTargets(g: Cfg, ops: seq<Op>, made: set<Label>, m: Marks) {
    forall t :: t in Targets(ops) ==>
      (t in made ||
       (t in m.entry && m.entry[t] <= Defined(g, m.entry) &&
        (t in m.pending || (t in g.order && Onward(g.order, g.cur, t) && (g.cur in m.reached ==> t in m.reached)))))
  }

  lemma HopInv(g: Cfg, h: Cfg, ops: seq<Op>, made: set<Label>, l: Label, m: Marks)
    requires Inv(g, m) && Hops(g, h, ops, made, l) && l in m.pending + made
    requires if g.exited then ops == [] else Closed(ops)
    requires HopTargets(g, ops, made, m) && UsesOk(ops, Defined(g, m.entry))
    ensures Inv(h, Hopped(g, ops, made, l, m))
    ensures l in m.pending ==> Defined(h, Hopped(g, ops, made, l, m).entry) == m.entry[l]
    ensures l in made ==> Defined(h, Hopped(g, ops, made, l, m).entry) == Defined(g, m.entry)
  {
    hide Targets, Defs, UsesOk, OpsIn, HopTargets, Forward, Marked, LaidOut, Covered, Sane, Open, Closed, Hops;
    CurFacts(g, m);
    DefsAppend(OpsIn(g, g.cur), ops);
    UsesAppend(OpsIn(g, g.cur), ops, m.entry[g.cur]);
    HopClosed(g, ops, m);
    HopKept(g, h, ops, made, l);
    HopEnd(g, h, ops, made, l, m);
    HopLaidOut(g, h, ops, made, l, m);
    HopForward(g, h, ops, made, l, m);
    HopMarked(g, h, ops, made, l, m);
    HopCovered(g, h, ops, made, l, m);
    HopDefined(g, h, ops, made, l, m);
  }

  lemma CurFacts(g: Cfg, m: Marks)
    requires Inv(g, m)
    ensures m.entry.Keys == g.code.Keys && g.cur in g.code && UsesOk(OpsIn(g, g.cur), m.entry[g.cur]) && Sane(g)
    ensures Defined(g, m.entry) == m.entry[g.cur] + Defs(OpsIn(g, g.cur))
    ensures forall t :: t in m.pending ==> t in g.code && OpsIn(g, t) == []
  {}

  lemma HopClosed(g: Cfg, ops: seq<Op>, m: Marks)
    requires LaidOut(g, m.pending) && if g.exited then ops == [] else Closed(ops)
    ensures Closed(OpsIn(g, g.cur) + ops)
  {
    if g.exited {
      assert OpsIn(g, g.cur) + ops == OpsIn(g, g.cur);
    } else {
      OpenAppend(OpsIn(g, g.cur), ops);
    }
  }

  /** The block a hop ends. */
  lemma HopEnd(g: Cfg, h: Cfg, ops: seq<Op>, made: set<Label>, l: Label, m: Marks)
    requires Hops(g, h, ops, made, l)
    ensures OpsIn(h, g.cur) == OpsIn(g, g.cur) + ops && h.cur == l
  {}

  /** The block a hop moves to. */
  lemma HopDefined(g: Cfg, h: Cfg, ops: seq<Op>, made: set<Label>, l: Label, m: Marks)
    requires LaidOut(g, m.pending) && m.entry.Keys == g.code.Keys && Hops(g, h, ops, made, l) && l in m.pending + made
    requires forall x :: x in made ==> x !in g.code
    ensures l in m.pending ==> l in m.entry && Defined(h, Hopped(g, ops, made, l, m).entry) == m.entry[l]
    ensures l in made ==> Defined(h, Hopped(g, ops, made, l, m).entry) == Defined(g, m.entry)
  {
    hide Targets, Closed, Open;
    NoTargets();
    HopCode(g, h, ops, made, l, m);
  }

  lemma HopCode(g: Cfg, h: Cfg, ops: seq<Op>, made: set<Label>, l: Label, m: Marks)
    requires LaidOut(g, m.pending) && Hops(g, h, ops, made, l) && l in m.pending + made
    ensures OpsIn(h, l) == []
  {
    hide Targets, Closed, Open;
  }

  lemma HopKept(g: Cfg, h: Cfg, ops: seq<Op>, made: set<Label>, l: Label)
    requires Hops(g, h, ops, made, l) && Sane(g)
    ensures forall x :: x in g.code && x != g.cur ==> OpsIn(h, x) == OpsIn(g, x)
    ensures forall x :: x in made ==> OpsIn(h, x) == [] && x !in g.code
    ensures h.cur in h.code ==> Sane(h)
  {}

  lemma HopLaidOut(g: Cfg, h: Cfg, ops: seq<Op>, made: set<Label>, l: Label, m: Marks)
    requires LaidOut(g, m.pending) && Hops(g, h, ops, made, l) && l in m.pending + made
    requires (forall x :: x in g.code && x != g.cur ==> OpsIn(h, x) == OpsIn(g, x)) &&
             (forall x :: x in made ==> OpsIn(h, x) == [] && x !in g.code)
    requires Closed(OpsIn(h, g.cur)) && Targets(OpsIn(h, g.cur)) == Targets(OpsIn(g, g.cur)) + Targets(ops)
    requires HopTargets(g, ops, made, m)
    ensures LaidOut(h, m.pending + made - {l})
  {
    var pending := m.pending + made - {l};
    forall x | x in h.code
      ensures Targets(OpsIn(h, x)) <= h.code.Keys
    {
      if x in made {
        assert Targets(OpsIn(h, x)) == {};
      }
    }
  }

  lemma HopForward(g: Cfg, h: Cfg, ops: seq<Op>, made: set<Label>, l: Label, m: Marks)
    requires LaidOut(g, m.pending) && Forward(g) && Hops(g, h, ops, made, l) && l in m.pending + made
    requires (forall x :: x in g.code && x != g.cur ==> OpsIn(h, x) == OpsIn(g, x)) &&
             (forall x :: x in made ==> OpsIn(h, x) == [] && x !in g.code)
    requires Targets(OpsIn(h, g.cur)) == Targets(OpsIn(g, g.cur)) + Targets(ops)
    requires HopTargets(g, ops, made, m)
    ensures Forward(h)
  {
    assert OpsIn(h, l) == [];
    forall x, t | x in h.order && t in Targets(OpsIn(h, x))
      ensures Onward(h.order, x, t)
    {
      if x != l {
        assert x in g.order;
        if t in Targets(OpsIn(g, x)) || t in g.order {
          OnwardAppend(g.order, l, x, t);
        } else {
          PlaceAppend(g.order, l, x);
          PlaceAppend(g.order, l, t);
        }
      }
    }
  }

  lemma HopMarked(g: Cfg, h: Cfg, ops: seq<Op>, made: set<Label>, l: Label, m: Marks)
    requires Marked(g, m.reached) && Hops(g, h, ops, made, l) &&
             (forall x :: x in m.pending ==> x in g.code && OpsIn(g, x) == [])
    requires (forall x :: x in g.code && x != g.cur ==> OpsIn(h, x) == OpsIn(g, x)) &&
             (forall x :: x in made ==> OpsIn(h, x) == [] && x !in g.code)
    requires Targets(OpsIn(h, g.cur)) == Targets(OpsIn(g, g.cur)) + Targets(ops)
    requires HopTargets(g, ops, made, m)
    ensures Marked(h, Hopped(g, ops, made, l, m).reached)
  {
    hide Targets, OpsIn, Reachable, Edge, Defined, Onward;
    var reached := Hopped(g, ops, made, l, m).reached;
    NoTargets();
    forall x | x in m.reached
      ensures Reachable(h, x)
    {
      EdgesKept(g, h, ops);
      ReachableGrows(g, h, x);
    }
    forall x | x in reached
      ensures Reachable(h, x) && Targets(OpsIn(h, x)) <= reached
    {
      if x !in m.reached {
        NewlyReached(g, h, ops, x);
        ReachableStep(h, g.cur, x);
      }
    }
  }

  lemma EdgesKept(g: Cfg, h: Cfg, ops: seq<Op>)
    requires forall x :: x in g.code && x != g.cur ==> x in h.code && OpsIn(h, x) == OpsIn(g, x)
    requires g.cur in h.code && Targets(OpsIn(h, g.cur)) == Targets(OpsIn(g, g.cur)) + Targets(ops)
    ensures forall a, b :: Edge(g, a, b) ==> Edge(h, a, b)
  {
    hide Targets, OpsIn;
  }

  lemma NewlyReached(g: Cfg, h: Cfg, ops: seq<Op>, x: Label)
    requires g.cur in h.code && Targets(OpsIn(h, g.cur)) == Targets(OpsIn(g, g.cur)) + Targets(ops) && x in Targets(ops)
    ensures Edge(h, g.cur, x)
  {
    hide Targets, OpsIn;
  }

  lemma HopCovered(g: Cfg, h: Cfg, ops: seq<Op>, made: set<Label>, l: Label, m: Marks)
    requires LaidOut(g, m.pending) && Covered(g, m.entry) && Hops(g, h, ops, made, l)
    requires (forall x :: x in g.code && x != g.cur ==> OpsIn(h, x) == OpsIn(g, x)) &&
             (forall x :: x in made ==> OpsIn(h, x) == [] && x !in g.code)
    requires Targets(OpsIn(h, g.cur)) == Targets(OpsIn(g, g.cur)) + Targets(ops)
    requires Defs(OpsIn(h, g.cur)) == Defs(OpsIn(g, g.cur)) + Defs(ops)
    requires UsesOk(OpsIn(h, g.cur), m.entry[g.cur]) && HopTargets(g, ops, made, m)
    requires forall t :: t in m.pending ==> t in g.code
    ensures Covered(h, Hopped(g, ops, made, l, m).entry)
  {
    hide Targets, Defs, UsesOk, Sane, OpsIn, LaidOut, HopTargets;
    var entry := Hopped(g, ops, made, l, m).entry;
    HopEntry(g, h, ops, made, l, m);
    forall x, t | x in h.code && t in Targets(OpsIn(h, x)) && t in entry
      ensures entry[t] <= entry[x] + Defs(OpsIn(h, x))
    {
      HopEdge(g, h, ops, made, l, m, x, t);
    }
    forall x | x in h.code
      ensures UsesOk(OpsIn(h, x), entry[x])
    {
      NothingUsed(entry[x]);
    }
  }

  lemma HopEntry(g: Cfg, h: Cfg, ops: seq<Op>, made: set<Label>, l: Label, m: Marks)
    requires m.entry.Keys == g.code.Keys && Hops(g, h, ops, made, l) && forall x :: x in made ==> x !in g.code
    ensures Hopped(g, ops, made, l, m).entry.Keys == h.code.Keys
    ensures forall x :: x in h.code ==> Hopped(g, ops, made, l, m).entry[x] == if x in made then Defined(g, m.entry)
            else m.entry[x]
  {
    hide OpsIn, Defined;
  }

  lemma HopEdge(g: Cfg, h: Cfg, ops: seq<Op>, made: set<Label>, l: Label, m: Marks, x: Label, t: Label)
    requires LaidOut(g, m.pending) && Covered(g, m.entry) && Hops(g, h, ops, made, l)
    requires (forall x :: x in g.code && x != g.cur ==> OpsIn(h, x) == OpsIn(g, x)) &&
             (forall x :: x in made ==> OpsIn(h, x) == [] && x !in g.code)
    requires Targets(OpsIn(h, g.cur)) == Targets(OpsIn(g, g.cur)) + Targets(ops)
    requires Defs(OpsIn(h, g.cur)) == Defs(OpsIn(g, g.cur)) + Defs(ops)
    requires HopTargets(g, ops, made, m) && x in h.code && t in Targets(OpsIn(h, x)) && t in h.code
    ensures var entry := Hopped(g, ops, made, l, m).entry;
            x in entry && t in entry && entry[t] <= entry[x] + Defs(OpsIn(h, x))
  {
    hide Targets, Defs, UsesOk, Sane, OpsIn, Open, Closed, Onward;
    NoTargets();
    HopEntry(g, h, ops, made, l, m);
    assert x in g.code;
    if x == g.cur && t !in Targets(OpsIn(g, g.cur)) {
      assert t in Targets(ops);
    } else {
      assert t in g.code && t in m.entry;
    }
  }

  lemma NoTargets()
    ensures Targets([]) == {} && Defs([]) == {}
  {}

  lemma NothingUsed(defined: set<nat>)
    ensures UsesOk([], defined)
  {}
}
