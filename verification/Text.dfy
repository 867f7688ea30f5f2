/** How expressions, types and literals appear in the generated listing. */
module Text {
  import opened Types
  import opened Source
  import opened Ir

  /** value<T>: the SSA operand and the name it prints as. */
  datatype Value = Value(op: Operand, name: string)

  /** variable<T>: the alloca it owns, its type, and its name. */
  datatype Variable = Variable(slot: nat, ty: Ty, name: string)

  /** The C++ locals in scope, by level. */
  datatype Locals = Locals(vals: seq<Value>, vars: seq<Variable>)

  const DIGITS := "0123456789"

  function NatText(n: nat): (s: string)
    ensures |s| > 0
  {
    if n < 10 then [DIGITS[n]] else NatText(n / 10) + [DIGITS[n % 10]]
  }

  /** std::to_string */
  function IntText(n: int): string {
    if n < 0 then "-" + NatText(-n) else NatText(n)
  }

  function TyName(t: Ty): string {
    match t
    case TVoid => "void"
    case TBool => "bool"
    case TByte => "byte"
    case TInt(n, signed) => (if signed then "i" else "u") + NatText(8 * n)
    case TPtr(e) => TyName(e) + "*"
  }

  function LitText(t: Ty, n: int): string {
    if t.TBool? then (if n != 0 then "true" else "false") else IntText(n)
  }

  function ArithSymbol(op: ArithOp): char {
    match op
    case PlusOp => '+'
    case MinusOp => '-'
    case TimesOp => '*'
    case DivOp => '/'
    case ModOp => '%'
    case AndOp => '&'
    case OrOp => '|'
    case XorOp => '^'
  }

  function RelSymbol(op: RelOp): string {
    match op
    case EqOp => "=="
    case NeOp => "!="
    case GeOp => ">="
    case GtOp => ">"
    case LeOp => "<="
    case LtOp => "<"
  }

  function Show(e: Expr, vals: seq<Value>): string {
    match e
    case Val(i, _) => if i < |vals| then vals[i].name else ""
    case Lit(ty, n) => LitText(ty, n)
    case Arith(op, l, r) => "(" + Show(l, vals) + " " + [ArithSymbol(op)] + " " + Show(r, vals) + ")"
    case PtrArith(minus, l, r) => "(" + Show(l, vals) + " " + (if minus then "-" else "+") + " " + Show(r, vals) + ")"
    case Rel(op, l, r) => "(" + Show(l, vals) + " " + RelSymbol(op) + " " + Show(r, vals) + ")"
    case Cast(to, e1) => "cast<" + TyName(to) + ">(" + Show(e1, vals) + ")"
    case BitCast(to, e1) => "bit_cast<" + TyName(to) + ">(" + Show(e1, vals) + ")"
  }

  function ShowArgs(args: seq<Expr>, vals: seq<Value>): string {
    if args == [] then "" else Show(args[0], vals) + ", " + ShowArgs(args[1..], vals)
  }

  function Spaces(n: nat): (s: string)
    ensures |s| == n && forall i :: 0 <= i < n ==> s[i] == ' '
  {
    seq(n, _ => ' ')
  }

  /** The text of a listing: every line ended by a newline. */
  function Join(lines: seq<string>): string {
    if lines == [] then "" else Join(lines[..|lines| - 1]) + lines[|lines| - 1] + "\n"
  }
}
