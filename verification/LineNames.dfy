/** Which line of the finished listing every emitted instruction is recorded against: its text, and how
    deep it is nested. */
module LineNames {
  import opened Types
  import opened Source
  import opened Ir
  import opened Text
  import opened Lowering
  import opened Listings

  /** A line of the listing: what it says, and how many lambdas it stands in. */
  datatype Note = Note(depth: nat, text: string)

  function Rendered(n: Note): string { Spaces(4 * n.depth) + n.text }

  function Render(notes: seq<Note>): (lines: seq<string>)
    ensures |lines| == |notes|
  {
    seq(|notes|, i requires 0 <= i < |notes| => Rendered(notes[i]))
  }

  lemma RenderAppend(xs: seq<Note>, ys: seq<Note>)
    ensures Render(xs + ys) == Render(xs) + Render(ys)
  {}

  // ----- the lines of a lambda -----

  /** The statement an action is printed as, if it is printed. */
  function ActionLine(a: Action, vals: seq<string>, vars: seq<string>, id: nat): Option<Simple> {
    match a
    case ReadValue(RGet(_)) => None
    case ReadValue(RLoad(p)) => Some(SLoad(ValName(id), EraseE(p, vals)))
    case Declare(ty, name) => Some(SDeclare(ty, name))
    case Set(x, e) => Some(SSet(VarOf(vars, x), EraseE(e, vals)))
    case Store(e, p) => Some(SStore(EraseE(p, vals), EraseE(e, vals)))
    case MemCmp(p, q, n) => Some(SMemCmp(EraseE(p, vals), EraseE(q, vals), EraseE(n, vals)))
  }

  function ActionNote(a: Action, ls: Locals, b: Builder, d: nat): Option<Note> {
    match ActionLine(a, ValNames(ls.vals), VarNames(ls.vars), b.src.nextId)
    case None => None
    case Some(s) => Some(Note(d, LineText(s)))
  }

  function Printed(n: Option<Note>): seq<Note> { if n.Some? then [n.value] else [] }

  function CallNote(fn: FnRef, args: seq<Expr>, ls: Locals, d: nat): Note {
    Note(d, LineText(SCall(fn.name, EraseArgs(args, ValNames(ls.vals)))))
  }

  function ReturnNote(e: Expr, ls: Locals, d: nat): Note { Note(d, LineText(SReturn(EraseE(e, ValNames(ls.vals))))) }

  function IfNote(e: Expr, ls: Locals, d: nat): Note { Note(d, "if (" + ShowEx(EraseE(e, ValNames(ls.vals))) + ") {") }

  /** The condition is printed with the names its first copy has read. */
  function WhileNote(cnd: Cond, ls: Locals, b: Builder, d: nat): Note {
    var ls1 := LowerReads(cnd.first, ls, BeforeReads(b)).1;
    Note(d, "while (" + ShowEx(EraseE(cnd.test, ValNames(ls1.vals))) + ") {")
  }

  /** The builder when a loop's condition is generated first. */
  function BeforeReads(b: Builder): Builder { SetLoc(b, CurrentLine(b) + 1, b.scope) }

  function ReadLines(rds: seq<Read>, ls: Locals, b: Builder, d: nat): seq<Note>
    decreases |rds|
  {
    if rds == [] then []
    else
      Printed(ActionNote(ReadValue(rds[0]), ls, b, d)) +
      ReadLines(rds[1..], ReadLocals(rds[0], ls, b), LowerRead(rds[0], ls, b), d)
  }

  /** The lines a lambda nested d deep adds. */
  function LinesOf(c: Code, ls: Locals, b: Builder, d: nat): seq<Note>
    decreases c, 1
  {
    match c
    case Done => []
    case Break => if b.cfg.loop.InLoop? then [Note(d, LineText(SBreak))] else []
    case Continue => if b.cfg.loop.InLoop? then [Note(d, LineText(SContinue))] else []
    case Return(e) => [ReturnNote(e, ls, d)]
    case ReturnVoid => [Note(d, LineText(SReturnVoid))]
    case Act(a, next) => Printed(ActionNote(a, ls, b, d)) +
        LinesOf(next, ActionLocals(a, ls, b), LowerAction(a, ls, b), d)
    case Call(fn, args, next) => [CallNote(fn, args, ls, d)] + LinesOf(next, CallLocals(fn, args, ls, b),
        LowerCall(fn, args, ls, b), d)
    case If(e, t, f, next) => IfLines(e, t, f, next, ls, b, d)
    case IfThen(e, t, next) =>
      var b1 := IfThenHead(e, ls, b);
      [IfNote(e, ls, d)] + LinesOf(t, ls, b1, d + 1) + [Note(d, "}")] +
      LinesOf(next, ls, IfThenEnd(b, Lower(t, ls, b1)), d)
    case While(cnd, body, next) =>
      LoopLines(cnd, body, ls, b, d) + LinesOf(next, ls, WhileEnd(b, Lower(body, ls, WhileHead(cnd, ls, b))), d)
  }

  function IfLines(e: Expr, t: Code, f: Code, next: Code, ls: Locals, b: Builder, d: nat): seq<Note>
    decreases If(e, t, f, next), 0
  {
    var b1 := IfHead(e, ls, b);
    var b3 := IfElse(b, Lower(t, ls, b1));
    [IfNote(e, ls, d)] + LinesOf(t, ls, b1, d + 1) + [Note(d, "} else {")] + LinesOf(f, ls, b3, d + 1) +
    [Note(d, "}")] +
    LinesOf(next, ls, IfEnd(b, Lower(f, ls, b3)), d)
  }

  /** A loop: the loads of its condition, its first line, the loads again, its body, its last line. */
  function LoopLines(cnd: Cond, body: Code, ls: Locals, b: Builder, d: nat): (notes: seq<Note>)
    ensures |notes| >= 2
    decreases body, 2
  {
    ReadLines(cnd.first, ls, BeforeReads(b), d) + [WhileNote(cnd, ls, b, d)] +
    ReadLines(cnd.first, ls, WhileEntry(cnd, ls, b), d) + LinesOf(body, ls, WhileHead(cnd, ls, b), d + 1) +
    [Note(d, "}")]
  }

  // ----- the line of each instruction -----

  /** What an instruction is recorded against: a line of the listing; `ahead` if that is the line after the one
      its statement begins with, as in the header of a loop whose condition prints nothing. */
  datatype Mark = Mark(note: Note, ahead: bool)

  function At(n: Note): Option<Mark> { Some(Mark(n, false)) }

  /** The mark of the current location after instructions with these marks. */
  function Latest(marks: seq<Option<Mark>>, cur: Option<Mark>): Option<Mark> {
    if marks == [] then cur else marks[|marks| - 1]
  }

  function Same(m: Option<Mark>, k: nat): (marks: seq<Option<Mark>>)
    ensures |marks| == k
  {
    seq(k, _ => m)
  }

  /** A get keeps the current location; every other statement has its own. */
  function ActionSaid(a: Action, ls: Locals, b: Builder, d: nat, cur: Option<Mark>): seq<Option<Mark>> {
    var n := ActionNote(a, ls, b, d);
    Same(if n.None? then cur else At(n.value), |ActionCode(a, ls, b.cfg.nextReg).ops|)
  }

  function ReadsSaid(rds: seq<Read>, ls: Locals, b: Builder, d: nat, cur: Option<Mark>): seq<Option<Mark>>
    decreases |rds|
  {
    if rds == [] then []
    else
      var first := ActionSaid(ReadValue(rds[0]), ls, b, d, cur);
      first + ReadsSaid(rds[1..], ReadLocals(rds[0], ls, b), LowerRead(rds[0], ls, b), d, Latest(first, cur))
  }

  function TestSaid(e: Expr, ls: Locals, b: Builder, n: Note): seq<Option<Mark>> {
    Same(At(n), |Emitted(e, ls.vals, b.cfg.nextReg).ops| + 1)
  }

  /** The branch that closes a body is recorded against the closing line. */
  function CloseSaid(b: Builder, n: Note): seq<Option<Mark>> { if b.cfg.exited then [] else [At(n)] }

  function Loads(rds: seq<Read>): nat { if rds == [] then 0 else (if rds[0].RLoad? then 1 else 0) + Loads(rds[1..]) }

  /** What a loop header records before its condition has loaded: the second line of the loop, which without
      loads is the line after the header's own. */
  function Ahead(cnd: Cond, body: Code, ls: Locals, b: Builder, d: nat): Option<Mark> {
    Some(Mark(LoopLines(cnd, body, ls, b, d)[1], Loads(cnd.first) == 0))
  }

  function EntrySaid(cnd: Cond, ls: Locals, b: Builder, d: nat, cur: Option<Mark>): seq<Option<Mark>> {
    var copy := ReadsSaid(cnd.first, ls, BeforeReads(b), d, cur);
    copy + [Latest(copy, cur)]
  }

  function HeaderSaid(cnd: Cond, ls: Locals, b: Builder, d: nat, cur: Option<Mark>): seq<Option<Mark>> {
    var b3 := WhileEntry(cnd, ls, b);
    var (b4, ls4) := LowerReads(cnd.first, ls, b3);
    var copy := ReadsSaid(cnd.first, ls, b3, d, cur);
    copy + Same(Latest(copy, cur), |Emitted(cnd.test, ls4.vals, b4.cfg.nextReg).ops| + 1)
  }

  /** For each instruction a lambda nested d deep emits, the line it is recorded against; `cur` is that of the
      current location at its start, None while the function has none. */
  function Said(c: Code, ls: Locals, b: Builder, d: nat, cur: Option<Mark>): seq<Option<Mark>>
    decreases c, 1
  {
    match c
    case Done => []
    case Break => if b.cfg.loop.InLoop? then [At(Note(d, LineText(SBreak)))] else []
    case Continue => if b.cfg.loop.InLoop? then [At(Note(d, LineText(SContinue)))] else []
    case Return(e) => TestSaid(e, ls, b, ReturnNote(e, ls, d))
    case ReturnVoid => [At(Note(d, LineText(SReturnVoid)))]
    case Act(a, next) =>
      var first := ActionSaid(a, ls, b, d, cur);
      first + Said(next, ActionLocals(a, ls, b), LowerAction(a, ls, b), d, Latest(first, cur))
    case Call(fn, args, next) =>
      var at := At(CallNote(fn, args, ls, d));
      Same(at, |EmittedArgs(args, ls.vals, b.cfg.nextReg).ops| + 1) +
      Said(next, CallLocals(fn, args, ls, b), LowerCall(fn, args, ls, b), d, at)
    case If(e, t, f, next) => IfSaid(e, t, f, next, ls, b, d)
    case IfThen(e, t, next) => IfThenSaid(e, t, next, ls, b, d)
    case While(cnd, body, next) => WhileSaid(cnd, body, next, ls, b, d)
  }

  /** A body, and the branch that closes it. */
  function ArmSaid(arm: Code, ls: Locals, b1: Builder, d: nat, cur: Option<Mark>, close: Note): seq<Option<Mark>>
    decreases arm, 2
  {
    Said(arm, ls, b1, d + 1, cur) + CloseSaid(Lower(arm, ls, b1), close)
  }

  function IfSaid(e: Expr, t: Code, f: Code, next: Code, ls: Locals, b: Builder, d: nat): seq<Option<Mark>>
    decreases If(e, t, f, next), 0
  {
    var b1 := IfHead(e, ls, b);
    var b3 := IfElse(b, Lower(t, ls, b1));
    var note := IfNote(e, ls, d);
    var yes := ArmSaid(t, ls, b1, d, At(note), Note(d, "} else {"));
    var no := ArmSaid(f, ls, b3, d, Latest(yes, At(note)), Note(d, "}"));
    TestSaid(e, ls, b, note) + yes + no + Said(next, ls, IfEnd(b, Lower(f, ls, b3)), d,
        Latest(no, Latest(yes, At(note))))
  }

  function IfThenSaid(e: Expr, t: Code, next: Code, ls: Locals, b: Builder, d: nat): seq<Option<Mark>>
    decreases IfThen(e, t, next), 0
  {
    var b1 := IfThenHead(e, ls, b);
    var note := IfNote(e, ls, d);
    var yes := ArmSaid(t, ls, b1, d, At(note), Note(d, "}"));
    TestSaid(e, ls, b, note) + yes + Said(next, ls, IfThenEnd(b, Lower(t, ls, b1)), d, Latest(yes, At(note)))
  }

  function WhileSaid(cnd: Cond, body: Code, next: Code, ls: Locals, b: Builder, d: nat): seq<Option<Mark>>
    decreases While(cnd, body, next), 0
  {
    var b5 := WhileHead(cnd, ls, b);
    var entry := EntrySaid(cnd, ls, b, d, Ahead(cnd, body, ls, b, d));
    var header := HeaderSaid(cnd, ls, b, d, Latest(entry, None));
    var inner := ArmSaid(body, ls, b5, d, Latest(header, None), Note(d, "}"));
    entry + header + inner + Said(next, ls, WhileEnd(b, Lower(body, ls, b5)), d, Latest(inner, Latest(header, None)))
  }

  // ----- the scope of each line -----

  /** The lines of a whole listing, and the name and first line of one of its functions. */
  datatype Page = Page(notes: seq<Note>, name: string, header: string)

  /** The debug scope of a line nested d deep that follows these lines: the function's, from its first line on,
      and within it a lexical block for each line that deeper ones follow, from the first of them on. */
  function ScopeAfter(p: Page, notes: seq<Note>, d: nat): Scope {
    if notes == [] then FileScope
    else
      var n, before := notes[|notes| - 1], notes[..|notes| - 1];
      if n.depth >= d then ScopeAfter(p, before, d)
      else if n == Note(0, p.header) then FnScope(FileScope, p.name, |notes|)
      else Lexical(ScopeAfter(p, before, n.depth), |notes| + 1)
  }

  function Levels(s: Scope): nat { if s.Lexical? then 1 + Levels(s.parent) else 0 }

  /** A function's scope carries its name and the number of its first line; a lexical block that of the line
      after one that stands in the enclosing scope. */
  predicate WellNested(p: Page, s: Scope) {
    match s
    case FileScope => false
    case FnScope(parent, name, line) =>
      parent == FileScope && name == p.name && 1 <= line <= |p.notes| && p.notes[line - 1] == Note(0, p.header)
    case Lexical(parent, line) =>
      2 <= line <= |p.notes| + 1 && p.notes[line - 2].depth == Levels(parent) + 1 && WellNested(p, parent)
  }

  /** The scope of line number `line`: its lexical blocks are as many as the lambdas around it. */
  predicate InScope(p: Page, s: Scope, line: nat) {
    1 <= line <= |p.notes| && s == ScopeAfter(p, p.notes[..line - 1], p.notes[line - 1].depth) && WellNested(p, s) &&
    Levels(s) + 1 == p.notes[line - 1].depth
  }

  // ----- against a listing -----

  /** From b to h exactly these lines have been added, and the indentation is that of depth d. */
  predicate AddsLines(b: Builder, h: Builder, notes: seq<Note>, d: nat) {
    h.src.lines == b.src.lines + Render(notes) && h.src.indent == 4 * d
  }

  /** A location names a line of the listing and the scope its statement stands in, or is no location. */
  predicate Names(p: Page, loc: DebugLoc, m: Option<Mark>) {
    match m
    case None => loc == NoLoc
    case Some(k) =>
      loc.Loc? && 1 <= loc.line <= |p.notes| && p.notes[loc.line - 1] == k.note && (k.ahead ==> loc.line >= 2) &&
      InScope(p, loc.scope, if k.ahead then loc.line - 1 else loc.line)
  }

  predicate AllNamed(p: Page, ins: seq<Ins>, marks: seq<Option<Mark>>) {
    |ins| == |marks| && forall i :: 0 <= i < |ins| ==> Names(p, ins[i].loc, marks[i])
  }

  /** The page's lines from index n on begin with these. */
  predicate Fits(p: Page, n: nat, notes: seq<Note>) {
    n + |notes| <= |p.notes| && p.notes[n..n + |notes|] == notes
  }

  predicate Deep(notes: seq<Note>, d: nat) { forall i :: 0 <= i < |notes| ==> notes[i].depth >= d }

  /** A statement nested d deep whose first line has index n stands in scope s. */
  predicate Stands(p: Page, n: nat, s: Scope, d: nat) {
    n <= |p.notes| && s == ScopeAfter(p, p.notes[..n], d) && WellNested(p, s) && Levels(s) + 1 == d
  }
}
