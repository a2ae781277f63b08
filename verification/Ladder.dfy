/** The expression parser: the precedence ladder from `||` down to primaries, as
    functions from the remaining tokens to a tree, the tokens left over and the
    number of diagnostics. `d` is the nesting depth on entry, `s` says whether a
    brace after a name starts a struct literal. A construct that is not part of this
    model swallows the rest of the input and gives `EOutside`. */
module Ladder {
  const MAX_DEPTH: nat := 256

  datatype Op = OrOr | Or | And | Eq | Ne | Lt | Gt | Le | Ge | Add | Sub | WAdd | WSub | Mul | Div | Mod

  datatype Tok =
    | TInt(s: string) | TFloat(s: string) | TStr(s: string) | TIdent(s: string)
    | TTrue | TFalse | TVoid | TSelf
    | LParen | RParen | LBracket | RBracket | LBrace | Comma | Dot | Question | Bang | Pow | DotDot | DotDotEq
    | TOp(op: Op)
    | TStart     // opens a construct outside this model: if, match, scope, own, a closure
    | TOther
    | Eof

  datatype Expr =
    | EAtom(t: Tok)
    | EIdent(x: string)
    | EBin(op: Op, l: Expr, r: Expr)
    | ERange(incl: bool, lo: Expr, hi: Expr)
    | ERepeat(l: Expr, r: Expr)
    | EUn(neg: bool, arg: Expr)
    | ECall(f: Expr, args: seq<Expr>)
    | EIndex(o: Expr, i: Expr)
    | EMember(o: Expr, name: string)
    | ETry(o: Expr)
    | ETuple(elems: seq<Expr>)
    | EArray(elems: seq<Expr>)
    | EOutside

  datatype Res = Res(e: Expr, rest: seq<Tok>, errs: nat)

  datatype Suffixed = Suffixed(r: Res, more: bool)

  datatype ListRes = ListRes(es: seq<Expr>, rest: seq<Tok>, errs: nat)

  function Peek(ts: seq<Tok>): Tok { if ts == [] then Eof else ts[0] }

  predicate Atomic(t: Tok) { t.TInt? || t.TFloat? || t.TStr? || t.TTrue? || t.TFalse? || t.TVoid? }

  predicate IsCompare(t: Tok) { t.TOp? && (t.op.Eq? || t.op.Ne? || t.op.Lt? || t.op.Gt? || t.op.Le? || t.op.Ge?) }

  /** The left-associative operators of level `k`: `||`, `or`, `&&`, sums, products. */
  predicate OpAt(k: nat, t: Tok) {
    t.TOp? &&
    match t.op
    case OrOr => k == 0
    case Or => k == 1
    case And => k == 2
    case Add => k == 5
    case Sub => k == 5
    case WAdd => k == 5
    case WSub => k == 5
    case Mul => k == 6
    case Div => k == 6
    case Mod => k == 6
    case _ => false
  }

  /** `expect`: takes the token, or reports that it is missing. */
  function Expect(t: Tok, r: Res): (q: Res)
    ensures |q.rest| <= |r.rest|
  {
    if Peek(r.rest) == t && r.rest != [] then r.(rest := r.rest[1..]) else r.(errs := r.errs + 1)
  }

  function Outside(errs: nat): Res { Res(EOutside, [], errs) }

  // ---------- The ladder ----------

  /** Levels 0 to 9: `||`, `or`, `&&`, comparison, range, sum, product, unary,
      postfix, primary. */
  function Parse(k: nat, ts: seq<Tok>, d: nat, s: bool): (r: Res)
    requires k <= 9
    ensures |r.rest| <= |ts|
    decreases |ts|, 20 - k
  {
    if k == 0 || k == 1 || k == 2 || k == 5 then
      var l := Parse(k + 1, ts, d, s);
      Loop(k, l.e, l.rest, d, s, l.errs)
    else if k == 3 then
      var l := Parse(4, ts, d, s);
      Compare(l.e, l.rest, d, s, l.errs, false)
    else if k == 4 then
      var l := Parse(5, ts, d, s);
      if Peek(l.rest) != DotDot && Peek(l.rest) != DotDotEq then l
      else
        var h := Parse(5, l.rest[1..], d, s);
        Res(ERange(Peek(l.rest) == DotDotEq, l.e, h.e), h.rest, l.errs + h.errs)
    else if k == 6 then
      var l := Parse(7, ts, d, s);
      if Peek(l.rest) == Pow then
        var r := Parse(7, l.rest[1..], d, s);
        Loop(6, ERepeat(l.e, r.e), r.rest, d, s, l.errs + r.errs)
      else Loop(6, l.e, l.rest, d, s, l.errs)
    else if k == 7 then
      if Peek(ts) == TOp(Sub) || Peek(ts) == Bang then
        var r := Parse(7, ts[1..], d, s);
        r.(e := EUn(Peek(ts) == TOp(Sub), r.e))
      else Parse(8, ts, d, s)
    else if k == 8 then
      var r := Parse(9, ts, d, s);
      Postfix(r.e, r.rest, d + 1, r.errs)
    else if d + 1 > MAX_DEPTH then Res(EAtom(TVoid), ts, 1)
    else Primary(ts, d + 1, s)
  }

  /** Operators of level `k` one after the other, leaning left. */
  function Loop(k: nat, lhs: Expr, ts: seq<Tok>, d: nat, s: bool, errs: nat): (r: Res)
    requires k < 9
    ensures |r.rest| <= |ts|
    decreases |ts|, 0
  {
    if !OpAt(k, Peek(ts)) then Res(lhs, ts, errs)
    else
      var r := Parse(k + 1, ts[1..], d, s);
      Loop(k, EBin(Peek(ts).op, lhs, r.e), r.rest, d, s, errs + r.errs)
  }

  /** Comparisons do not chain; a chain is reported once and read on. */
  function Compare(lhs: Expr, ts: seq<Tok>, d: nat, s: bool, errs: nat, reported: bool): (r: Res)
    ensures |r.rest| <= |ts|
    decreases |ts|, 0
  {
    if !IsCompare(Peek(ts)) then Res(lhs, ts, errs)
    else
      var r := Parse(4, ts[1..], d, s);
      var b := EBin(Peek(ts).op, lhs, r.e);
      if IsCompare(Peek(r.rest)) then
        Compare(b, r.rest, d, s, errs + r.errs + if reported then 0 else 1, true)
      else Res(b, r.rest, errs + r.errs)
  }

  /** Calls, indexes, members and `?`, as long as they follow. */
  function Postfix(e: Expr, ts: seq<Tok>, d: nat, errs: nat): (r: Res)
    ensures |r.rest| <= |ts|
    decreases |ts|, 2
  {
    var s := Suffix(e, ts, d, errs);
    if s.more then Postfix(s.r.e, s.r.rest, d, s.r.errs) else s.r
  }

  /** At most one suffix; `more` says that there was one to read past. */
  function Suffix(e: Expr, ts: seq<Tok>, d: nat, errs: nat): (s: Suffixed)
    ensures |s.r.rest| <= |ts| && (s.more ==> |s.r.rest| < |ts|)
    decreases |ts|, 1
  {
    if d > MAX_DEPTH then Suffixed(Res(e, ts, errs + 1), false)
    else match Peek(ts)
      case LParen => Suffixed(CallSuffix(e, ts, d, errs), true)
      case LBracket => IndexSuffix(e, ts, d, errs)
      case Dot =>
        var m := Peek(ts[1..]);
        if m.TIdent? then Suffixed(Res(EMember(e, m.s), ts[2..], errs), true)
        else if m.TInt? then Suffixed(Outside(errs), false)
        else Suffixed(Res(EMember(e, ""), ts[1..], errs + 1), true)
      case Question => Suffixed(Res(ETry(e), ts[1..], errs), true)
      case _ => Suffixed(Res(e, ts, errs), false)
  }

  function IndexSuffix(o: Expr, ts: seq<Tok>, d: nat, errs: nat): (s: Suffixed)
    requires Peek(ts) == LBracket
    ensures |s.r.rest| < |ts|
    decreases |ts|, 0
  {
    if CallFollows(ts, 0) then Suffixed(Outside(errs), false)
    else
      var i := Parse(0, ts[1..], d, true);
      if Peek(i.rest) == Comma then Suffixed(Outside(errs), false)
      else Suffixed(Expect(RBracket, Res(EIndex(o, i.e), i.rest, errs + i.errs)), true)
  }

  function CallSuffix(f: Expr, ts: seq<Tok>, d: nat, errs: nat): (r: Res)
    requires Peek(ts) == LParen
    ensures |r.rest| < |ts|
    decreases |ts|, 0
  {
    var a := List([], ts[1..], d, RParen, errs);
    Expect(RParen, Res(ECall(f, a.es), a.rest, a.errs))
  }

  /** From a `[`: whether its `]` is followed by `(`, which makes type arguments. */
  predicate CallFollows(ts: seq<Tok>, depth: nat) {
    match Peek(ts)
    case Eof => false
    case LBracket => CallFollows(ts[1..], depth + 1)
    case RBracket =>
      if depth <= 1 then depth == 1 && Peek(ts[1..]) == LParen else CallFollows(ts[1..], depth - 1)
    case _ => CallFollows(ts[1..], depth)
  }

  /** Expressions between commas, up to `close`, after those in `acc`; a last comma
      may dangle. */
  function List(acc: seq<Expr>, ts: seq<Tok>, d: nat, close: Tok, errs: nat): (r: ListRes)
    ensures |r.rest| <= |ts| && errs <= r.errs
    decreases |ts|, 21
  {
    if Peek(ts) == close then ListRes(acc, ts, errs)
    else
      var r := Parse(0, ts, d, true);
      if Peek(r.rest) != Comma then ListRes(acc + [r.e], r.rest, errs + r.errs)
      else List(acc + [r.e], r.rest[1..], d, close, errs + r.errs)
  }

  function Primary(ts: seq<Tok>, d: nat, s: bool): (r: Res)
    ensures |r.rest| <= |ts|
    decreases |ts|, 1
  {
    var t := Peek(ts);
    if Atomic(t) then Res(EAtom(t), ts[1..], 0)
    else if t == TSelf then Res(EIdent("self"), ts[1..], 0)
    else if t.TIdent? then
      if s && Peek(ts[1..]) == LBrace then Outside(0) else Res(EIdent(t.s), ts[1..], 0)
    else if t == LParen then
      if Peek(ts[1..]) == RParen then Res(ETuple([]), ts[2..], 0)
      else
        var first := Parse(0, ts[1..], d, true);
        var all := if Peek(first.rest) == Comma then List([first.e], first.rest[1..], d, RParen, first.errs)
                   else ListRes([first.e], first.rest, first.errs);
        Expect(RParen, Res(if |all.es| == 1 then first.e else ETuple(all.es), all.rest, all.errs))
    else if t == LBracket then
      var a := List([], ts[1..], d, RBracket, 0);
      Expect(RBracket, Res(EArray(a.es), a.rest, a.errs))
    else if t == LBrace || t == TStart || t == TOp(OrOr) then Outside(0)
    else if ts == [] then Res(EAtom(TVoid), ts, 1)
    else Res(EAtom(TVoid), ts[1..], 1)
  }
}
