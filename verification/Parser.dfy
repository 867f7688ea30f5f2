/** Reading a listing back. */
module Parser {
  import opened Types
  import opened Source
  import opened Text
  import opened Listings

  // ----- characters -----

  predicate IsDigit(c: char) { '0' <= c <= '9' }

  predicate IsIdent(c: char) { 'a' <= c <= 'z' || 'A' <= c <= 'Z' || IsDigit(c) || c == '_' }

  predicate AllIdent(s: string) { forall i :: 0 <= i < |s| ==> IsIdent(s[i]) }

  /** An identifier. */
  predicate IsName(s: string) { s != "" && AllIdent(s) && !IsDigit(s[0]) }

  function TakeIdent(s: string): (r: (string, string))
    ensures s == r.0 + r.1
  {
    if s == "" || !IsIdent(s[0]) then ("", s)
    else
      var (w, rest) := TakeIdent(s[1..]);
      ([s[0]] + w, rest)
  }

  /** Everything before the first c. */
  function TakeUntil(c: char, s: string): (r: (string, string))
    ensures s == r.0 + r.1
  {
    if s == "" || s[0] == c then ("", s)
    else
      var (w, rest) := TakeUntil(c, s[1..]);
      ([s[0]] + w, rest)
  }

  lemma {:induction false} TakeIdentAll(w: string, rest: string)
    requires AllIdent(w) && (rest == "" || !IsIdent(rest[0]))
    ensures TakeIdent(w + rest) == (w, rest)
    decreases |w|
  {
    if w == "" {
      assert w + rest == rest;
    } else {
      assert (w + rest)[1..] == w[1..] + rest && (w + rest)[0] == w[0];
      assert AllIdent(w[1..]) by {
        assert forall i :: 0 <= i < |w[1..]| ==> w[1..][i] == w[i + 1];
      }
      TakeIdentAll(w[1..], rest);
      assert [w[0]] + w[1..] == w;
    }
  }

  lemma {:induction false} TakeUntilAll(c: char, w: string, rest: string)
    requires c !in w && rest != "" && rest[0] == c
    ensures TakeUntil(c, w + rest) == (w, rest)
    decreases |w|
  {
    if w == "" {
      assert w + rest == rest;
    } else {
      assert (w + rest)[1..] == w[1..] + rest && (w + rest)[0] == w[0];
      TakeUntilAll(c, w[1..], rest);
      assert [w[0]] + w[1..] == w;
    }
  }

  predicate StartsWith(s: string, p: string) { |p| <= |s| && s[..|p|] == p }

  // ----- numbers -----

  function DigitValue(c: char): nat
    requires IsDigit(c)
  {
    (c as int) - ('0' as int)
  }

  /** Digits, most significant first, continuing from n. */
  function ReadDigits(s: string, n: nat): (r: (nat, string))
    ensures |r.1| <= |s|
    decreases |s|
  {
    if s == "" || !IsDigit(s[0]) then (n, s) else ReadDigits(s[1..], 10 * n + DigitValue(s[0]))
  }

  lemma {:induction false} DigitsRead(n: nat, rest: string)
    requires rest == "" || !IsDigit(rest[0])
    ensures ReadDigits(NatText(n) + rest, 0) == (n, rest)
    ensures IsDigit(NatText(n)[0])
  {
    DigitsThen(n, rest);
    assert ReadDigits(rest, n) == (n, rest);
  }

  lemma DigitChar(d: nat)
    requires d < 10
    ensures IsDigit(DIGITS[d]) && DigitValue(DIGITS[d]) == d
  {
    assert DIGITS == "0123456789";
  }

  lemma {:induction false} DigitsThen(n: nat, rest: string)
    ensures ReadDigits(NatText(n) + rest, 0) == ReadDigits(rest, n) && IsDigit(NatText(n)[0])
    decreases n
  {
    DigitChar(n % 10);
    if n < 10 {
      var s := [DIGITS[n]] + rest;
      assert s[0] == DIGITS[n] && s[1..] == rest;
    } else {
      var d := [DIGITS[n % 10]];
      DigitsThen(n / 10, d + rest);
      assert NatText(n) + rest == NatText(n / 10) + (d + rest);
      assert (d + rest)[0] == DIGITS[n % 10] && (d + rest)[1..] == rest;
      assert 10 * (n / 10) + n % 10 == n;
    }
  }

  // ----- symbols and types -----

  /** The operators as C++ writes them. */
  function ReadSymbol(s: string): Option<Symbol> {
    if s == "+" then Some(Calculates(PlusOp))
    else if s == "-" then Some(Calculates(MinusOp))
    else if s == "*" then Some(Calculates(TimesOp))
    else if s == "/" then Some(Calculates(DivOp))
    else if s == "%" then Some(Calculates(ModOp))
    else if s == "&" then Some(Calculates(AndOp))
    else if s == "|" then Some(Calculates(OrOp))
    else if s == "^" then Some(Calculates(XorOp))
    else if s == "==" then Some(Compares(EqOp))
    else if s == "!=" then Some(Compares(NeOp))
    else if s == "<" then Some(Compares(LtOp))
    else if s == "<=" then Some(Compares(LeOp))
    else if s == ">" then Some(Compares(GtOp))
    else if s == ">=" then Some(Compares(GeOp))
    else None
  }

  lemma SymbolRead(op: Symbol)
    ensures ReadSymbol(SymbolText(op)) == Some(op) && ' ' !in SymbolText(op) && '\n' !in SymbolText(op)
  {}

  /** A type: a word, with an asterisk for each pointer; i32 is signed, u32 is not, and both are four bytes. */
  function ReadTy(s: string): Option<Ty>
    decreases |s|
  {
    if s == "void" then Some(TVoid)
    else if s == "bool" then Some(TBool)
    else if s == "byte" then Some(TByte)
    else if s == "" then None
    else if s[|s| - 1] == '*' then
      match ReadTy(s[..|s| - 1])
      case Some(t) => Some(TPtr(t))
      case None => None
    else if s[0] == 'i' || s[0] == 'u' then
      var (bits, rest) := ReadDigits(s[1..], 0);
      if rest == "" && bits > 0 && bits % 8 == 0 then Some(TInt(bits / 8, s[0] == 'i')) else None
    else None
  }

  lemma {:induction false} TypeRead(t: Ty)
    ensures ReadTy(TyName(t)) == Some(t) && TyName(t) != ""
    decreases t
  {
    match t
    case TPtr(e) =>
      TypeRead(e);
      var s := TyName(t);
      assert s[..|s| - 1] == TyName(e) && s[|s| - 1] == '*';
      StarLast(s);
    case TInt(n, signed) =>
      DigitsRead(8 * n, "");
      assert NatText(8 * n) + "" == NatText(8 * n);
      IntRead(n, signed);
    case _ =>
  }

  lemma StarLast(s: string)
    requires s != "" && s[|s| - 1] == '*'
    ensures s != "void" && s != "bool" && s != "byte"
  {}

  lemma {:induction false} LastDigit(n: nat)
    ensures IsDigit(NatText(n)[|NatText(n)| - 1])
  {
    DigitChar(n % 10);
  }

  lemma IntRead(n: Pos, signed: bool)
    requires ReadDigits(NatText(8 * n), 0) == (8 * n, "")
    ensures ReadTy(TyName(TInt(n, signed))) == Some(TInt(n, signed))
  {
    hide NatText, ReadDigits;
    var s := TyName(TInt(n, signed));
    LastDigit(8 * n);
    assert s[1..] == NatText(8 * n) && s[|s| - 1] == NatText(8 * n)[|NatText(8 * n)| - 1];
    assert s[0] == (if signed then 'i' else 'u');
    assert "void"[0] == 'v' && "bool"[0] == 'b' && "byte"[0] == 'b';
  }

  lemma {:induction false} DigitsAreIdent(n: nat)
    ensures AllIdent(NatText(n))
    decreases n
  {
    DigitChar(n % 10);
    if n >= 10 {
      DigitsAreIdent(n / 10);
    }
  }

  predicate AllStars(s: string) { forall i :: 0 <= i < |s| ==> s[i] == '*' }

  lemma {:induction false} TypeWord(t: Ty) returns (w: string, stars: string)
    ensures TyName(t) == w + stars && AllStars(stars) && AllIdent(w) && w != "" && w != "return"
    decreases t
  {
    match t
    case TPtr(e) =>
      w, stars := TypeWord(e);
      assert w + (stars + "*") == (w + stars) + "*";
      stars := stars + "*";
    case TInt(n, signed) =>
      w, stars := TyName(t), "";
      DigitsAreIdent(8 * n);
      assert w[0] == (if signed then 'i' else 'u') && "return"[0] == 'r';
      assert w + stars == w;
    case _ =>
      w, stars := TyName(t), "";
      assert w + stars == w;
      assert "return"[0] == 'r';
  }

  /** A type's name is a word and asterisks. */
  lemma TypeReadable(t: Ty)
    ensures '>' !in TyName(t) && ' ' !in TyName(t) && '\n' !in TyName(t)
  {
    var w, stars := TypeWord(t);
    forall i | 0 <= i < |TyName(t)|
      ensures TyName(t)[i] != '>' && TyName(t)[i] != ' ' && TyName(t)[i] != '\n'
    {
      assert TyName(t)[i] == if i < |w| then w[i] else stars[i - |w|];
    }
  }

  // ----- expressions -----

  function Negative(n: nat): int { 0 - (n as int) }

  function ParseEx(s: string): (r: Option<(Ex, string)>)
    ensures r.Some? ==> |r.value.1| < |s|
    decreases |s|, 1
  {
    if s == "" then None
    else if s[0] == '(' then ParseBin(s)
    else if s[0] == '-' then
      if |s| > 1 && IsDigit(s[1]) then
        var (n, rest) := ReadDigits(s[1..], 0);
        Some((Num(Negative(n)), rest))
      else None
    else if IsDigit(s[0]) then
      var (n, rest) := ReadDigits(s[1..], DigitValue(s[0]));
      Some((Num(n), rest))
    else ParseWord(s)
  }

  /** (l op r) */
  function ParseBin(s: string): (r: Option<(Ex, string)>)
    requires s != ""
    ensures r.Some? ==> |r.value.1| < |s|
    decreases |s|, 0
  {
    match ParseEx(s[1..])
    case None => None
    case Some((l, s1)) =>
      if !StartsWith(s1, " ") then None
      else
        var (op, s2) := TakeUntil(' ', s1[1..]);
        if !StartsWith(s2, " ") then None
        else match ParseEx(s2[1..])
          case None => None
          case Some((r, s3)) =>
            match ReadSymbol(op)
            case Some(o) => if StartsWith(s3, ")") then Some((Bin(o, l, r), s3[1..])) else None
            case None => None
  }

  /** A name, or a cast. */
  function ParseWord(s: string): (r: Option<(Ex, string)>)
    requires s != ""
    ensures r.Some? ==> |r.value.1| < |s|
    decreases |s|, 0
  {
    var (w, s1) := TakeIdent(s);
    if w == "" then None
    else if (w == "cast" || w == "bit_cast") && StartsWith(s1, "<") then
      var (ty, s2) := TakeUntil('>', s1[1..]);
      if !StartsWith(s2, ">(") then None
      else match ParseEx(s2[2..])
        case None => None
        case Some((e, s3)) =>
          match ReadTy(ty)
          case Some(to) => if StartsWith(s3, ")") then Some((CastTo(w == "bit_cast", to, e), s3[1..])) else None
          case None => None
    else Some((Name(w), s1))
  }

  /** Names are identifiers. */
  predicate GoodEx(x: Ex) {
    match x
    case Num(_) => true
    case Name(s) => IsName(s)
    case Bin(_, l, r) => GoodEx(l) && GoodEx(r)
    case CastTo(_, _, e) => GoodEx(e)
  }

  /** What may follow an expression in a line. */
  predicate Stops(rest: string) { rest == "" || (!IsIdent(rest[0]) && rest[0] != '<') }

  lemma {:induction false} ParseShow(x: Ex, rest: string)
    requires GoodEx(x) && Stops(rest)
    ensures ParseEx(ShowEx(x) + rest) == Some((x, rest))
    ensures ShowEx(x) != "" && ShowEx(x)[0] != '*' && ShowEx(x)[0] != ' ' && ShowEx(x)[0] != '='
    decreases x, 1
  {
    match x
    case Num(n) => NumberRead(n, rest);
    case Name(s) => NameRead(s, rest);
    case Bin(op, l, r) => BinRead(op, l, r, rest);
    case CastTo(bits, ty, e) => CastRead(bits, ty, e, rest);
  }

  lemma NumberRead(n: int, rest: string)
    requires Stops(rest)
    ensures ParseEx(IntText(n) + rest) == Some((Num(n), rest))
    ensures IntText(n) != "" && (IntText(n)[0] == '-' || IsDigit(IntText(n)[0]))
  {
    hide NatText, ReadDigits, ParseBin, ParseWord;
    var m: nat := if n < 0 then -n else n;
    DigitsRead(m, rest);
    if n < 0 {
      var s := IntText(n) + rest;
      assert s[0] == '-' && s[1..] == NatText(m) + rest && s[1] == NatText(m)[0];
    } else {
      PositiveRead(NatText(m), m, rest);
    }
  }

  lemma PositiveRead(digits: string, m: nat, rest: string)
    requires digits != "" && IsDigit(digits[0]) && ReadDigits(digits + rest, 0) == (m, rest)
    ensures ParseEx(digits + rest) == Some((Num(m), rest))
  {
    hide ParseBin, ParseWord;
    var s := digits + rest;
    assert s[0] == digits[0];
    assert ReadDigits(s, 0) == ReadDigits(s[1..], DigitValue(s[0]));
  }

  lemma NameRead(w: string, rest: string)
    requires IsName(w) && Stops(rest)
    ensures ParseEx(w + rest) == Some((Name(w), rest))
  {
    TakeIdentAll(w, rest);
    assert (w + rest)[0] == w[0] && IsIdent(w[0]);
    assert ParseEx(w + rest) == ParseWord(w + rest);
  }

  lemma BinSteps(s: string, l: Ex, op: Symbol, r: Ex, s1: string, s2: string, s3: string)
    requires s != "" && s[0] == '(' && ParseEx(s[1..]) == Some((l, s1)) && StartsWith(s1, " ")
    requires TakeUntil(' ', s1[1..]) == (SymbolText(op), s2) && StartsWith(s2, " ")
    requires ParseEx(s2[1..]) == Some((r, s3)) && StartsWith(s3, ")")
    ensures ParseEx(s) == Some((Bin(op, l, r), s3[1..]))
  {
    hide TakeUntil, ParseWord, ReadDigits, ReadSymbol, SymbolText;
    SymbolRead(op);
    assert ParseEx(s) == ParseBin(s);
  }

  lemma BinText(a: string, op: string, b: string, rest: string)
    ensures var s3 := ")" + rest;
            var s2 := " " + (b + s3);
            var s1 := " " + (op + s2);
            var s := "(" + a + " " + op + " " + b + ")" + rest;
            s != "" && s[0] == '(' && s[1..] == a + s1 && StartsWith(s1, " ") && s1[1..] == op + s2 &&
            StartsWith(s2, " ") && s2[1..] == b + s3 && StartsWith(s3, ")") && s3[1..] == rest
  {}

  lemma {:induction false} BinRead(op: Symbol, l: Ex, r: Ex, rest: string)
    requires GoodEx(l) && GoodEx(r) && Stops(rest)
    ensures ParseEx(ShowEx(Bin(op, l, r)) + rest) == Some((Bin(op, l, r), rest))
    ensures ShowEx(Bin(op, l, r)) != "" && ShowEx(Bin(op, l, r))[0] == '('
    decreases Bin(op, l, r), 0
  {
    hide ParseEx, TakeUntil, StartsWith, GoodEx, SymbolText, ReadSymbol;
    var s3 := ")" + rest;
    var s2 := " " + (ShowEx(r) + s3);
    var s1 := " " + (SymbolText(op) + s2);
    SymbolRead(op);
    BinText(ShowEx(l), SymbolText(op), ShowEx(r), rest);
    ParseShow(l, s1);
    ParseShow(r, s3);
    TakeUntilAll(' ', SymbolText(op), s2);
    BinSteps(ShowEx(Bin(op, l, r)) + rest, l, op, r, s1, s2, s3);
  }

  lemma CastSteps(s: string, bits: bool, ty: Ty, e: Ex, s1: string, s2: string, s3: string)
    requires s != "" && s[0] == (if bits then 'b' else 'c') &&
             TakeIdent(s) == (if bits then "bit_cast" else "cast", s1) && StartsWith(s1, "<")
    requires TakeUntil('>', s1[1..]) == (TyName(ty), s2) && StartsWith(s2, ">(")
    requires ParseEx(s2[2..]) == Some((e, s3)) && StartsWith(s3, ")")
    ensures ParseEx(s) == Some((CastTo(bits, ty, e), s3[1..]))
  {
    hide TakeUntil, TakeIdent, ParseBin, ReadDigits, ReadTy, TyName;
    TypeRead(ty);
    assert ParseEx(s) == ParseWord(s);
    assert "bit_cast"[0] != "cast"[0];
  }

  lemma CastText(w: string, ty: string, a: string, rest: string)
    requires w != ""
    ensures var s3 := ")" + rest;
            var s2 := ">(" + (a + s3);
            var s1 := "<" + (ty + s2);
            var s := w + "<" + ty + ">(" + a + ")" + rest;
            s == w + s1 && s != "" && s[0] == w[0] && StartsWith(s1, "<") && s1[1..] == ty + s2 &&
            StartsWith(s2, ">(") && s2[2..] == a + s3 && StartsWith(s3, ")") && s3[1..] == rest
  {}

  lemma {:induction false} CastRead(bits: bool, ty: Ty, e: Ex, rest: string)
    requires GoodEx(e) && Stops(rest)
    ensures ParseEx(ShowEx(CastTo(bits, ty, e)) + rest) == Some((CastTo(bits, ty, e), rest))
    ensures ShowEx(CastTo(bits, ty, e)) != "" && ShowEx(CastTo(bits, ty, e))[0] == (if bits then 'b' else 'c')
    decreases CastTo(bits, ty, e), 0
  {
    hide ParseEx, TakeUntil, TakeIdent, StartsWith, GoodEx, TyName;
    var w := if bits then "bit_cast" else "cast";
    var s3 := ")" + rest;
    var s2 := ">(" + (ShowEx(e) + s3);
    var s1 := "<" + (TyName(ty) + s2);
    TypeReadable(ty);
    CastText(w, TyName(ty), ShowEx(e), rest);
    ParseShow(e, s3);
    CastWord(bits);
    TakeIdentAll(w, s1);
    TakeUntilAll('>', TyName(ty), s2);
    CastSteps(ShowEx(CastTo(bits, ty, e)) + rest, bits, ty, e, s1, s2, s3);
  }

  lemma CastWord(bits: bool)
    ensures AllIdent(if bits then "bit_cast" else "cast")
  {}

  // ----- lines -----

  datatype ParsedLine = LSimple(s: Simple) | LIf(test: Ex) | LWhile(test: Ex) | LElse | LEnd

  function ParseLine(s: string): Option<ParsedLine> {
    if s == "}" then Some(LEnd)
    else if s == "} else {" then Some(LElse)
    else if StartsWith(s, "*") then ParseStore(s[1..])
    else
      var (w, r) := TakeIdent(s);
      if w == "" then None
      else if StartsWith(r, " = ") then ParseAssign(w, r[3..])
      else ParseKeyword(w, r)
  }

  function ParseKeyword(w: string, r: string): Option<ParsedLine> {
    if w == "if" && StartsWith(r, " (") then ParseTest(r[2..], false)
    else if w == "while" && StartsWith(r, " (") then ParseTest(r[2..], true)
    else if w == "break" && r == ";" then Some(LSimple(SBreak))
    else if w == "continue" && r == ";" then Some(LSimple(SContinue))
    else if w == "return" then
      if r == ";" then Some(LSimple(SReturnVoid)) else if StartsWith(r, " ") then ParseReturn(r[1..]) else None
    else ParseDeclare(w, r)
  }

  function ParseTest(s: string, loop: bool): Option<ParsedLine> {
    match ParseEx(s)
    case Some((e, r)) => if r == ") {" then Some(if loop then LWhile(e) else LIf(e)) else None
    case None => None
  }

  function ParseReturn(s: string): Option<ParsedLine> {
    match ParseEx(s)
    case Some((e, r)) => if r == ";" then Some(LSimple(SReturn(e))) else None
    case None => None
  }

  function ParseStore(s: string): Option<ParsedLine> {
    match ParseEx(s)
    case Some((p, r)) =>
      if !StartsWith(r, " = ") then None
      else (match ParseEx(r[3..])
            case Some((e, r1)) => if r1 == "" then Some(LSimple(SStore(p, e))) else None
            case None => None)
    case None => None
  }

  function ParseAssign(w: string, t: string): Option<ParsedLine> {
    if StartsWith(t, "*") then
      match ParseEx(t[1..])
      case Some((p, r)) => if r == "" then Some(LSimple(SLoad(w, p))) else None
      case None => None
    else
      var (v, r) := TakeIdent(t);
      if v != "" && StartsWith(r, "(") then ParseCall(w, v, r[1..])
      else
        match ParseEx(t)
        case Some((e, r1)) => if r1 == ";" then Some(LSimple(SSet(w, e))) else None
        case None => None
  }

  /** Arguments up to the end of the line, and whether each of them had a comma after it. */
  function ParseArgs(s: string): Option<(seq<Ex>, bool)>
    decreases |s|
  {
    if s == ");" then Some(([], true))
    else
      match ParseEx(s)
      case None => None
      case Some((x, r)) =>
        if StartsWith(r, ", ") then
          (match ParseArgs(r[2..])
           case Some((xs, all)) => Some(([x] + xs, all))
           case None => None)
        else if r == ");" then Some(([x], false))
        else None
  }

  /** A generated call puts a comma after every argument; memcmp's line does not. */
  function ParseCall(w: string, v: string, s: string): Option<ParsedLine> {
    match ParseArgs(s)
    case None => None
    case Some((args, all)) =>
      if w != v + "_ret" then None
      else if all then Some(LSimple(SCall(v, args)))
      else if v == "memcmp" && |args| == 3 then Some(LSimple(SMemCmp(args[0], args[1], args[2])))
      else None
  }

  function TakeStars(s: string): (r: (string, string))
    ensures s == r.0 + r.1
  {
    if s == "" || s[0] != '*' then ("", s)
    else
      var (w, rest) := TakeStars(s[1..]);
      ([s[0]] + w, rest)
  }

  function ParseDeclare(w: string, r: string): Option<ParsedLine> {
    var (stars, r1) := TakeStars(r);
    if !StartsWith(r1, " ") then None
    else
      var (name, r2) := TakeIdent(r1[1..]);
      if name == "" || r2 != ";" then None
      else match ReadTy(w + stars)
        case Some(ty) => Some(LSimple(SDeclare(ty, name)))
        case None => None
  }

  predicate GoodSimple(s: Simple) {
    match s
    case SDeclare(_, name) => IsName(name)
    case SSet(name, e) => IsName(name) && GoodEx(e)
    case SStore(p, e) => GoodEx(p) && GoodEx(e)
    case SLoad(name, p) => IsName(name) && GoodEx(p)
    case SCall(fn, args) => IsName(fn) && GoodArgs(args)
    case SMemCmp(a, b, c) => GoodEx(a) && GoodEx(b) && GoodEx(c)
    case SReturn(e) => GoodEx(e)
    case _ => true
  }

  predicate GoodArgs(args: seq<Ex>) { forall i :: 0 <= i < |args| ==> GoodEx(args[i]) }

  // ----- each kind of line is read back -----

  /** An expression does not look like a call. */
  lemma NotACall(x: Ex, rest: string)
    requires GoodEx(x) && rest != "" && !IsIdent(rest[0]) && rest[0] != '<' && rest[0] != '('
    ensures var (v, r) := TakeIdent(ShowEx(x) + rest); v == "" || !StartsWith(r, "(")
  {
    match x
    case Num(n) =>
      if n >= 0 {
        DigitsAreIdent(n);
        TakeIdentAll(NatText(n), rest);
      } else {
        assert (ShowEx(x) + rest)[0] == '-';
      }
    case Name(s) => TakeIdentAll(s, rest);
    case Bin(op, l, r) => assert (ShowEx(x) + rest)[0] == '(';
    case CastTo(bits, ty, e) =>
      var s1 := "<" + (TyName(ty) + (">(" + (ShowEx(e) + (")" + rest))));
      CastWord(bits);
      CastText(if bits then "bit_cast" else "cast", TyName(ty), ShowEx(e), rest);
      TakeIdentAll(if bits then "bit_cast" else "cast", s1);
  }

  lemma WordThen(w: string, rest: string)
    requires AllIdent(w) && w != "" && rest != "" && !IsIdent(rest[0])
    ensures TakeIdent(w + rest) == (w, rest) && !StartsWith(w + rest, "*") && w + rest != "}" && w + rest != "} else {"
  {
    TakeIdentAll(w, rest);
    assert (w + rest)[0] == w[0] && IsIdent(w[0]);
    assert "} else {"[0] == '}';
  }

  lemma SetRead(name: string, e: Ex)
    requires IsName(name) && GoodEx(e)
    ensures ParseLine(LineText(SSet(name, e))) == Some(LSimple(SSet(name, e)))
  {
    hide ParseEx, TakeIdent, ShowEx, GoodEx;
    var t := ShowEx(e) + ";";
    assert LineText(SSet(name, e)) == name + (" = " + t);
    WordThen(name, " = " + t);
    ParseShow(e, ";");
    NotACall(e, ";");
    assert (" = " + t)[3..] == t && StartsWith(" = " + t, " = ");
    assert t[0] == ShowEx(e)[0];
  }

  lemma LoadRead(name: string, p: Ex)
    requires IsName(name) && GoodEx(p)
    ensures ParseLine(LineText(SLoad(name, p))) == Some(LSimple(SLoad(name, p)))
  {
    hide ParseEx, TakeIdent, ShowEx, GoodEx;
    var t := "*" + ShowEx(p);
    assert LineText(SLoad(name, p)) == name + (" = " + t);
    WordThen(name, " = " + t);
    ParseShow(p, "");
    assert ShowEx(p) + "" == ShowEx(p);
    assert (" = " + t)[3..] == t && StartsWith(" = " + t, " = ") && StartsWith(t, "*") && t[1..] == ShowEx(p);
  }

  lemma StoreRead(p: Ex, e: Ex)
    requires GoodEx(p) && GoodEx(e)
    ensures ParseLine(LineText(SStore(p, e))) == Some(LSimple(SStore(p, e)))
  {
    hide ParseEx, TakeIdent, ShowEx, GoodEx;
    var r := " = " + ShowEx(e);
    var s := LineText(SStore(p, e));
    assert s == "*" + (ShowEx(p) + r) && s[0] == '*' && s[1..] == ShowEx(p) + r && StartsWith(s, "*");
    assert "} else {"[0] == '}';
    ParseShow(p, r);
    assert StartsWith(r, " = ") && r[3..] == ShowEx(e) && ShowEx(e) + "" == ShowEx(e);
    ParseShow(e, "");
  }

  lemma {:induction false} ArgsRead(args: seq<Ex>)
    requires GoodArgs(args)
    ensures ParseArgs(ShowList(args) + ");") == Some((args, true))
    decreases |args|
  {
    hide ParseEx, ShowEx, GoodEx;
    if args == [] {
      assert "" + ");" == ");";
    } else {
      var rest := ShowList(args[1..]) + ");";
      ArgsRead(args[1..]);
      ParseShow(args[0], ", " + rest);
      var s := ShowList(args) + ");";
      assert s == ShowEx(args[0]) + (", " + rest) && s[0] == ShowEx(args[0])[0];
      NotClosing(args[0]);
      assert StartsWith(", " + rest, ", ") && (", " + rest)[2..] == rest;
      assert [args[0]] + args[1..] == args;
    }
  }

  lemma NotClosing(x: Ex)
    requires GoodEx(x)
    ensures ShowEx(x) != "" && ShowEx(x)[0] != ')'
  {
    ParseShow(x, "");
    match x
    case Num(n) => NumberRead(n, "");
    case CastTo(bits, ty, e) => CastRead(bits, ty, e, "");
    case _ =>
  }

  lemma CallRead(fn: string, args: seq<Ex>)
    requires IsName(fn) && GoodArgs(args)
    ensures ParseLine(LineText(SCall(fn, args))) == Some(LSimple(SCall(fn, args)))
  {
    hide ParseLine, ShowList, ParseArgs;
    var a := ShowList(args) + ");";
    assert LineText(SCall(fn, args)) == (fn + "_ret") + (" = " + (fn + ("(" + a)));
    ArgsRead(args);
    CallLine(fn, a);
  }

  lemma LastArg(x: Ex)
    requires GoodEx(x)
    ensures ParseArgs(ShowEx(x) + ");") == Some(([x], false))
  {
    hide ParseEx, ShowEx, GoodEx;
    NotClosing(x);
    ParseShow(x, ");");
    assert (ShowEx(x) + ");")[0] == ShowEx(x)[0];
  }

  lemma MoreArg(x: Ex, s: string, xs: seq<Ex>)
    requires GoodEx(x) && ParseArgs(s) == Some((xs, false))
    ensures ParseArgs(ShowEx(x) + ", " + s) == Some(([x] + xs, false))
  {
    hide ParseEx, ShowEx, GoodEx;
    NotClosing(x);
    ParseShow(x, ", " + s);
    var t := ShowEx(x) + ", " + s;
    assert t == ShowEx(x) + (", " + s) && t[0] == ShowEx(x)[0] && (", " + s)[2..] == s && StartsWith(", " + s, ", ");
  }

  /** A line that assigns a call's result. */
  lemma CallLine(v: string, a: string)
    requires IsName(v)
    ensures ParseLine((v + "_ret") + (" = " + (v + ("(" + a)))) == ParseCall(v + "_ret", v, a)
  {
    hide TakeIdent, ParseCall;
    var t, w := v + ("(" + a), v + "_ret";
    assert AllIdent(w);
    WordThen(w, " = " + t);
    WordThen(v, "(" + a);
    assert (" = " + t)[3..] == t && StartsWith(" = " + t, " = ") && StartsWith("(" + a, "(") && ("(" + a)[1..] == a;
  }

  lemma MemCmpPrefix()
    ensures "memcmp_ret = memcmp(" == ("memcmp" + "_ret") + (" = " + ("memcmp" + "(")) && IsName("memcmp")
  {}

  lemma MemCmpText(p: string, x: string, y: string, z: string)
    ensures p + x + ", " + y + ", " + z + ");" == p + (x + ", " + (y + ", " + (z + ");")))
  {}

  lemma CallText(w: string, v: string, a: string)
    ensures (w + (" = " + (v + "("))) + a == w + (" = " + (v + ("(" + a)))
  {}

  lemma MemCmpRead(x: Ex, y: Ex, z: Ex)
    requires GoodEx(x) && GoodEx(y) && GoodEx(z)
    ensures ParseLine(LineText(SMemCmp(x, y, z))) == Some(LSimple(SMemCmp(x, y, z)))
  {
    hide ParseLine, ParseEx, ShowEx, GoodEx, ParseArgs, IsName;
    var c := ShowEx(z) + ");";
    var b := ShowEx(y) + ", " + c;
    var a := ShowEx(x) + ", " + b;
    LastArg(z);
    MoreArg(y, c, [z]);
    MoreArg(x, b, [y] + [z]);
    assert [x] + ([y] + [z]) == [x, y, z];
    MemCmpPrefix();
    MemCmpText("memcmp_ret = memcmp(", ShowEx(x), ShowEx(y), ShowEx(z));
    CallText("memcmp" + "_ret", "memcmp", a);
    CallLine("memcmp", a);
  }

  lemma ReturnRead(e: Ex)
    requires GoodEx(e)
    ensures ParseLine(LineText(SReturn(e))) == Some(LSimple(SReturn(e)))
  {
    hide ParseEx, TakeIdent, ShowEx, GoodEx;
    var r := " " + (ShowEx(e) + ";");
    assert LineText(SReturn(e)) == "return" + r;
    WordThen("return", r);
    ParseShow(e, ";");
    assert r[1..] == ShowEx(e) + ";" && StartsWith(r, " ") && r[1] == ShowEx(e)[0];
    assert !StartsWith(r, " = ") by {
      assert " = "[1] == '=';
    }
  }

  lemma KeywordsRead()
    ensures ParseLine("break;") == Some(LSimple(SBreak)) && ParseLine("continue;") == Some(LSimple(SContinue))
    ensures ParseLine("return;") == Some(LSimple(SReturnVoid)) && ParseLine("}") == Some(LEnd) &&
            ParseLine("} else {") == Some(LElse)
  {
    hide TakeIdent;
    assert "break;" == "break" + ";" && "continue;" == "continue" + ";" && "return;" == "return" + ";";
    WordThen("break", ";");
    WordThen("continue", ";");
    WordThen("return", ";");
  }

  lemma TestRead(e: Ex, loop: bool)
    requires GoodEx(e)
    ensures ParseLine((if loop then "while (" else "if (") + ShowEx(e) + ") {") == Some(if loop then LWhile(e)
            else LIf(e))
  {
    hide ParseEx, TakeIdent, ShowEx, GoodEx;
    var w := if loop then "while" else "if";
    var r := " (" + (ShowEx(e) + ") {");
    assert (if loop then "while (" else "if (") + ShowEx(e) + ") {" == w + r;
    WordThen(w, r);
    ParseShow(e, ") {");
    assert StartsWith(r, " (") && r[2..] == ShowEx(e) + ") {";
    assert r[1] == '(' && !StartsWith(r, " = ") by {
      assert " = "[1] == '=';
    }
  }

  lemma {:induction false} StarsAll(stars: string, rest: string)
    requires AllStars(stars) && (rest == "" || rest[0] != '*')
    ensures TakeStars(stars + rest) == (stars, rest)
    decreases |stars|
  {
    if stars == "" {
      assert stars + rest == rest;
    } else {
      assert (stars + rest)[1..] == stars[1..] + rest && (stars + rest)[0] == stars[0];
      assert AllStars(stars[1..]) by {
        assert forall i :: 0 <= i < |stars[1..]| ==> stars[1..][i] == stars[i + 1];
      }
      StarsAll(stars[1..], rest);
      assert [stars[0]] + stars[1..] == stars;
    }
  }

  lemma DeclareRead(ty: Ty, name: string)
    requires IsName(name)
    ensures ParseLine(LineText(SDeclare(ty, name))) == Some(LSimple(SDeclare(ty, name)))
  {
    hide TakeIdent, TakeStars, TyName, ReadTy;
    var w, stars := TypeWord(ty);
    TypeRead(ty);
    var tail := " " + (name + ";");
    var r := stars + tail;
    assert LineText(SDeclare(ty, name)) == w + r;
    assert r[0] == (if stars == "" then ' ' else '*');
    WordThen(w, r);
    StarsAll(stars, tail);
    TakeIdentAll(name, ";");
    assert StartsWith(tail, " ") && tail[1..] == name + ";" && tail[1] == name[0];
    DeclareNoKeyword(w, stars, name);
  }

  lemma DeclareNoKeyword(w: string, stars: string, name: string)
    requires AllStars(stars) && IsName(name) && w != "return"
    ensures var r := stars + (" " + (name + ";"));
            !StartsWith(r, " = ") && !StartsWith(r, " (") && r != ";" && ParseKeyword(w, r) == ParseDeclare(w, r)
  {
    hide ParseDeclare;
    var r := stars + (" " + (name + ";"));
    if stars == "" {
      assert r[1] == name[0] && IsIdent(r[1]);
      assert " = "[1] == '=' && " ("[1] == '(';
    } else {
      assert r[0] == '*';
      assert " = "[0] == ' ' && " ("[0] == ' ';
    }
  }

  lemma SimpleRead(s: Simple)
    requires GoodSimple(s)
    ensures ParseLine(LineText(s)) == Some(LSimple(s))
  {
    hide ParseLine, LineText, GoodEx;
    match s
    case SDeclare(ty, name) => DeclareRead(ty, name);
    case SSet(name, e) => SetRead(name, e);
    case SStore(p, e) => StoreRead(p, e);
    case SLoad(name, p) => LoadRead(name, p);
    case SCall(fn, args) => CallRead(fn, args);
    case SMemCmp(a, b, c) => MemCmpRead(a, b, c);
    case SReturn(e) => ReturnRead(e);
    case _ => PlainRead(s);
  }

  lemma PlainRead(s: Simple)
    requires s.SBreak? || s.SContinue? || s.SReturnVoid?
    ensures ParseLine(LineText(s)) == Some(LSimple(s))
  {
    hide ParseLine;
    KeywordsRead();
  }

  // ----- blocks -----

  function Strip(s: string): string { if s != "" && s[0] == ' ' then Strip(s[1..]) else s }

  /** The statements up to the end of the text or the line that closes their block. */
  function ParseBlock(lines: seq<string>): (r: Option<(Tree, seq<string>)>)
    ensures r.Some? ==> |r.value.1| <= |lines|
    decreases |lines|, 1
  {
    if lines == [] then Some((End, []))
    else match ParseLine(Strip(lines[0]))
      case None => None
      case Some(LEnd) => Some((End, lines))
      case Some(LElse) => Some((End, lines))
      case Some(LSimple(s)) =>
        (match ParseBlock(lines[1..])
         case Some((next, r)) => Some((One(s, next), r))
         case None => None)
      case Some(LIf(e)) => ParseIf(e, lines[1..])
      case Some(LWhile(e)) => ParseWhile(e, lines[1..])
  }

  function ParseIf(e: Ex, lines: seq<string>): (r: Option<(Tree, seq<string>)>)
    ensures r.Some? ==> |r.value.1| <= |lines|
    decreases |lines|, 2
  {
    match ParseBlock(lines)
    case None => None
    case Some((yes, r1)) =>
      if r1 == [] then None
      else if ParseLine(Strip(r1[0])) == Some(LEnd) then
        (match ParseBlock(r1[1..])
         case Some((next, r2)) => Some((TIfThen(e, yes, next), r2))
         case None => None)
      else
        match ParseBlock(r1[1..])
        case None => None
        case Some((no, r2)) =>
          if r2 == [] then None
          else match ParseBlock(r2[1..])
            case Some((next, r3)) => Some((TIf(e, yes, no, next), r3))
            case None => None
  }

  function ParseWhile(e: Ex, lines: seq<string>): (r: Option<(Tree, seq<string>)>)
    ensures r.Some? ==> |r.value.1| <= |lines|
    decreases |lines|, 2
  {
    match ParseBlock(lines)
    case None => None
    case Some((body, r1)) =>
      if r1 == [] then None
      else match ParseBlock(r1[1..])
        case Some((next, r2)) => Some((TWhile(e, body, next), r2))
        case None => None
  }

  predicate GoodTree(t: Tree) {
    match t
    case End => true
    case One(s, next) => GoodSimple(s) && GoodTree(next)
    case TIf(e, yes, no, next) => GoodEx(e) && GoodTree(yes) && GoodTree(no) && GoodTree(next)
    case TIfThen(e, yes, next) => GoodEx(e) && GoodTree(yes) && GoodTree(next)
    case TWhile(e, body, next) => GoodEx(e) && GoodTree(body) && GoodTree(next)
  }

  /** The text ends here, or the enclosing block does. */
  predicate EndsBlock(rest: seq<string>) {
    rest == [] || ParseLine(Strip(rest[0])) == Some(LEnd) || ParseLine(Strip(rest[0])) == Some(LElse)
  }

  lemma {:induction false} StripSpaces(n: nat, text: string)
    requires text == "" || text[0] != ' '
    ensures Strip(Spaces(n) + text) == text
    decreases n
  {
    var s := Spaces(n) + text;
    if n == 0 {
      assert s == text;
    } else {
      assert s[0] == ' ' && s[1..] == Spaces(n - 1) + text;
      StripSpaces(n - 1, text);
    }
  }

  /** Printing a tree and parsing the lines gives the tree back, whatever follows. */
  lemma {:induction false} ParsePrint(t: Tree, indent: nat, rest: seq<string>)
    requires GoodTree(t) && EndsBlock(rest)
    ensures ParseBlock(Print(t, indent) + rest) == Some((t, rest))
    decreases t, 1
  {
    hide ParseLine, Strip, GoodSimple, GoodEx, LineText, ShowEx;
    match t
    case End => assert [] + rest == rest;
    case One(s, next) =>
      SimpleLine(s, indent);
      ParsePrint(next, indent, rest);
      var all := Print(t, indent) + rest;
      assert all[0] == Spaces(indent) + LineText(s) && all[1..] == Print(next, indent) + rest;
    case TIf(e, yes, no, next) => IfRead(e, yes, no, next, indent, rest);
    case TIfThen(e, yes, next) => IfThenRead(e, yes, next, indent, rest);
    case TWhile(e, body, next) => WhileRead(e, body, next, indent, rest);
  }

  lemma SimpleLine(s: Simple, indent: nat)
    requires GoodSimple(s)
    ensures ParseLine(Strip(Spaces(indent) + LineText(s))) == Some(LSimple(s))
  {
    hide ParseLine, LineText;
    SimpleRead(s);
    NoLeadingBlank(s);
    StripSpaces(indent, LineText(s));
  }

  lemma NoLeadingBlank(s: Simple)
    requires GoodSimple(s)
    ensures LineText(s) == "" || LineText(s)[0] != ' '
  {
    hide ShowEx, GoodEx, ShowList;
    match s
    case SDeclare(ty, _) =>
      var w, stars := TypeWord(ty);
    case _ =>
  }

  lemma TestLine(e: Ex, loop: bool, indent: nat)
    requires GoodEx(e)
    ensures var text := (if loop then "while (" else "if (") + ShowEx(e) + ") {";
            ParseLine(Strip(Spaces(indent) + text)) == Some(if loop then LWhile(e) else LIf(e))
  {
    hide ParseLine, ShowEx;
    TestRead(e, loop);
    StripSpaces(indent, (if loop then "while (" else "if (") + ShowEx(e) + ") {");
  }

  lemma EndLines(indent: nat)
    ensures ParseLine(Strip(Spaces(indent) + "}")) == Some(LEnd) &&
            ParseLine(Strip(Spaces(indent) + "} else {")) == Some(LElse)
  {
    hide ParseLine;
    KeywordsRead();
    StripSpaces(indent, "}");
    StripSpaces(indent, "} else {");
  }

  lemma IfSteps(lines: seq<string>, e: Ex, yes: Tree, r1: seq<string>, no: Tree, r2: seq<string>, next: Tree,
      r3: seq<string>)
    requires lines != [] && ParseLine(Strip(lines[0])) == Some(LIf(e)) && ParseBlock(lines[1..]) == Some((yes, r1))
    requires r1 != [] && ParseLine(Strip(r1[0])) == Some(LElse) && ParseBlock(r1[1..]) == Some((no, r2))
    requires r2 != [] && ParseBlock(r2[1..]) == Some((next, r3))
    ensures ParseBlock(lines) == Some((TIf(e, yes, no, next), r3))
  {
    hide ParseLine, Strip;
    assert ParseBlock(lines) == ParseIf(e, lines[1..]);
  }

  lemma IfThenSteps(lines: seq<string>, e: Ex, yes: Tree, r1: seq<string>, next: Tree, r2: seq<string>)
    requires lines != [] && ParseLine(Strip(lines[0])) == Some(LIf(e)) && ParseBlock(lines[1..]) == Some((yes, r1))
    requires r1 != [] && ParseLine(Strip(r1[0])) == Some(LEnd) && ParseBlock(r1[1..]) == Some((next, r2))
    ensures ParseBlock(lines) == Some((TIfThen(e, yes, next), r2))
  {
    hide ParseLine, Strip;
    assert ParseBlock(lines) == ParseIf(e, lines[1..]);
  }

  lemma WhileSteps(lines: seq<string>, e: Ex, body: Tree, r1: seq<string>, next: Tree, r2: seq<string>)
    requires lines != [] && ParseLine(Strip(lines[0])) == Some(LWhile(e)) && ParseBlock(lines[1..]) == Some((body, r1))
    requires r1 != [] && ParseBlock(r1[1..]) == Some((next, r2))
    ensures ParseBlock(lines) == Some((TWhile(e, body, next), r2))
  {
    hide ParseLine, Strip;
    assert ParseBlock(lines) == ParseWhile(e, lines[1..]);
  }

  /** A line, a block, a closing line and what follows. */
  lemma Pieces(a: string, block: seq<string>, z: string, after: seq<string>, rest: seq<string>)
    ensures var all := [a] + block + [z] + after + rest;
            all != [] && all[0] == a && all[1..] == block + ([z] + (after + rest)) &&
            ([z] + (after + rest))[1..] == after + rest
  {}

  lemma TwoPieces(a: string, x: seq<string>, m: string, y: seq<string>, z: string, after: seq<string>,
      rest: seq<string>)
    ensures var all := [a] + x + [m] + y + [z] + after + rest;
            var r1 := [m] + (y + ([z] + (after + rest)));
            all != [] && all[0] == a && all[1..] == x + r1 && r1[0] == m && r1[1..] == y + ([z] + (after + rest))
  {}

  lemma {:induction false} IfRead(e: Ex, yes: Tree, no: Tree, next: Tree, indent: nat, rest: seq<string>)
    requires GoodEx(e) && GoodTree(yes) && GoodTree(no) && GoodTree(next) && EndsBlock(rest)
    ensures ParseBlock(Print(TIf(e, yes, no, next), indent) + rest) == Some((TIf(e, yes, no, next), rest))
    decreases TIf(e, yes, no, next), 0
  {
    hide ParseBlock, ParseLine, Strip, GoodEx, ShowEx, GoodTree;
    var head, mid, last := Spaces(indent) + ("if (" + ShowEx(e) + ") {"), Spaces(indent) + "} else {",
        Spaces(indent) + "}";
    var x, y, z := Print(yes, indent + 4), Print(no, indent + 4), Print(next, indent);
    var r2 := [last] + (z + rest);
    var r1 := [mid] + (y + r2);
    TestLine(e, false, indent);
    EndLines(indent);
    ParsePrint(yes, indent + 4, r1);
    ParsePrint(no, indent + 4, r2);
    ParsePrint(next, indent, rest);
    TwoPieces(head, x, mid, y, last, z, rest);
    Pieces(mid, y, last, z, rest);
    assert Print(TIf(e, yes, no, next), indent) == [head] + x + [mid] + y + [last] + z;
    IfSteps([head] + x + [mid] + y + [last] + z + rest, e, yes, r1, no, r2, next, rest);
  }

  lemma {:induction false} IfThenRead(e: Ex, yes: Tree, next: Tree, indent: nat, rest: seq<string>)
    requires GoodEx(e) && GoodTree(yes) && GoodTree(next) && EndsBlock(rest)
    ensures ParseBlock(Print(TIfThen(e, yes, next), indent) + rest) == Some((TIfThen(e, yes, next), rest))
    decreases TIfThen(e, yes, next), 0
  {
    hide ParseBlock, ParseLine, Strip, GoodEx, ShowEx, GoodTree;
    var head, last := Spaces(indent) + ("if (" + ShowEx(e) + ") {"), Spaces(indent) + "}";
    var x, z := Print(yes, indent + 4), Print(next, indent);
    var r1 := [last] + (z + rest);
    TestLine(e, false, indent);
    EndLines(indent);
    ParsePrint(yes, indent + 4, r1);
    ParsePrint(next, indent, rest);
    Pieces(head, x, last, z, rest);
    assert Print(TIfThen(e, yes, next), indent) == [head] + x + [last] + z;
    IfThenSteps([head] + x + [last] + z + rest, e, yes, r1, next, rest);
  }

  lemma {:induction false} WhileRead(e: Ex, body: Tree, next: Tree, indent: nat, rest: seq<string>)
    requires GoodEx(e) && GoodTree(body) && GoodTree(next) && EndsBlock(rest)
    ensures ParseBlock(Print(TWhile(e, body, next), indent) + rest) == Some((TWhile(e, body, next), rest))
    decreases TWhile(e, body, next), 0
  {
    hide ParseBlock, ParseLine, Strip, GoodEx, ShowEx, GoodTree;
    var head, last := Spaces(indent) + ("while (" + ShowEx(e) + ") {"), Spaces(indent) + "}";
    var x, z := Print(body, indent + 4), Print(next, indent);
    var r1 := [last] + (z + rest);
    TestLine(e, true, indent);
    EndLines(indent);
    ParsePrint(body, indent + 4, r1);
    ParsePrint(next, indent, rest);
    Pieces(head, x, last, z, rest);
    assert Print(TWhile(e, body, next), indent) == [head] + x + [last] + z;
    WhileSteps([head] + x + [last] + z + rest, e, body, r1, next, rest);
  }
}
