/** The ladder inverts a printer that adds parentheses only where a level asks for
    them: parsing what is printed gives the tree back, takes all of it and reports
    nothing, up to the nesting limit. */
module LadderRoundTrip {
  import opened Ladder

  // ---------- The printer ----------

  function Level(e: Expr): (k: nat)
    ensures k <= 9
  {
    match e
    case EBin(op, _, _) => OpLevel(op)
    case ERange(_, _, _) => 4
    case ERepeat(_, _) => 6
    case EUn(_, _) => 7
    case ECall(_, _) => 8
    case EIndex(_, _) => 8
    case EMember(_, _) => 8
    case ETry(_) => 8
    case _ => 9
  }

  function OpLevel(op: Op): nat {
    match op
    case OrOr => 0
    case Or => 1
    case And => 2
    case Add => 5
    case Sub => 5
    case WAdd => 5
    case WSub => 5
    case Mul => 6
    case Div => 6
    case Mod => 6
    case _ => 3
  }

  /** `e`, where level `k` or tighter is asked for, in front of `rest`. */
  function Print(e: Expr, k: nat, rest: seq<Tok>): (ts: seq<Tok>)
    decreases e, 1, 0
  {
    if Level(e) < k then [LParen] + Natural(e, [RParen] + rest) else Natural(e, rest)
  }

  /** A call on an index expression needs parentheses: `a[i](x)` reads as a call
      with type arguments. */
  function CalleeLevel(f: Expr): nat { if f.EIndex? then 9 else 8 }

  function RightLevel(op: Op): nat { if OpLevel(op) == 3 then 4 else OpLevel(op) + 1 }

  function LeftLevel(op: Op): nat { if OpLevel(op) == 3 then 4 else OpLevel(op) }

  function Natural(e: Expr, rest: seq<Tok>): (ts: seq<Tok>)
    decreases e, 0, |Kids(e)| + 1
  {
    match e
    case EAtom(t) => [t] + rest
    case EIdent(x) => [if x == "self" then TSelf else TIdent(x)] + rest
    case EBin(op, l, r) => Print(l, LeftLevel(op), [TOp(op)] + Print(r, RightLevel(op), rest))
    case ERange(incl, lo, hi) => Print(lo, 5, [if incl then DotDotEq else DotDot] + Print(hi, 5, rest))
    case ERepeat(l, r) => Print(l, 7, [Pow] + Print(r, 7, rest))
    case EUn(neg, arg) => [if neg then TOp(Sub) else Bang] + Print(arg, 7, rest)
    case ECall(f, _) => Print(f, CalleeLevel(f), [LParen] + PrintList(e, 0, [RParen] + rest))
    case EIndex(o, i) => Print(o, 8, [LBracket] + Print(i, 0, [RBracket] + rest))
    case EMember(o, name) => Print(o, 8, [Dot] + ([TIdent(name)] + rest))
    case ETry(o) => Print(o, 8, [Question] + rest)
    case ETuple(_) => [LParen] + PrintList(e, 0, [RParen] + rest)
    case EArray(_) => [LBracket] + PrintList(e, 0, [RBracket] + rest)
    case EOutside => rest
  }

  function Kids(e: Expr): seq<Expr> {
    match e
    case ECall(_, args) => args
    case ETuple(elems) => elems
    case EArray(elems) => elems
    case _ => []
  }

  /** The listed expressions from `i` on, with commas between them. */
  function PrintList(e: Expr, i: nat, rest: seq<Tok>): (ts: seq<Tok>)
    requires i <= |Kids(e)|
    decreases e, 0, |Kids(e)| - i
  {
    if i == |Kids(e)| then rest
    else if i + 1 == |Kids(e)| then Print(Kids(e)[i], 0, rest)
    else Print(Kids(e)[i], 0, [Comma] + PrintList(e, i + 1, rest))
  }

  /** Trees that source text can mean: a tuple never has exactly one element. */
  predicate Printable(e: Expr)
    decreases e
  {
    match e
    case EAtom(t) => Atomic(t)
    case EIdent(_) => true
    case EBin(_, l, r) => Printable(l) && Printable(r)
    case ERange(_, l, r) => Printable(l) && Printable(r)
    case ERepeat(l, r) => Printable(l) && Printable(r)
    case EUn(_, x) => Printable(x)
    case ECall(f, args) => Printable(f) && forall i :: 0 <= i < |args| ==> Printable(args[i])
    case EIndex(o, i) => Printable(o) && Printable(i)
    case EMember(o, _) => Printable(o)
    case ETry(o) => Printable(o)
    case ETuple(elems) => |elems| != 1 && forall i :: 0 <= i < |elems| ==> Printable(elems[i])
    case EArray(elems) => forall i :: 0 <= i < |elems| ==> Printable(elems[i])
    case EOutside => false
  }

  function Max(a: nat, b: nat): nat { if a < b then b else a }

  /** How deep the parser goes for `Print(e, k)`. */
  function Need(e: Expr, k: nat): (n: nat)
    ensures n >= 1
    decreases e, 1, 0
  {
    if Level(e) < k then 1 + NeedNatural(e) else NeedNatural(e)
  }

  function NeedNatural(e: Expr): (n: nat)
    ensures n >= 1
    decreases e, 0, |Kids(e)| + 1
  {
    match e
    case EBin(op, l, r) => Max(Need(l, LeftLevel(op)), Need(r, RightLevel(op)))
    case ERange(_, lo, hi) => Max(Need(lo, 5), Need(hi, 5))
    case ERepeat(l, r) => Max(Need(l, 7), Need(r, 7))
    case EUn(_, x) => Need(x, 7)
    case ECall(f, _) => Max(Need(f, CalleeLevel(f)), 1 + NeedList(e, 0))
    case EIndex(o, i) => Max(Need(o, 8), 1 + Need(i, 0))
    case EMember(o, _) => Need(o, 8)
    case ETry(o) => Need(o, 8)
    case ETuple(_) => 1 + NeedList(e, 0)
    case EArray(_) => 1 + NeedList(e, 0)
    case _ => 1
  }

  function NeedList(e: Expr, i: nat): nat
    requires i <= |Kids(e)|
    decreases e, 0, |Kids(e)| - i
  {
    if i == |Kids(e)| then 0 else Max(Need(Kids(e)[i], 0), NeedList(e, i + 1))
  }

  // ---------- What may follow ----------

  /** `t` would be read on by level `k` or a tighter one. */
  predicate Continues(k: nat, t: Tok) {
    match t
    case TOp(op) => k <= OpLevel(op)
    case DotDot => k <= 4
    case DotDotEq => k <= 4
    case Pow => k <= 6
    case LParen => k <= 8
    case LBracket => k <= 8
    case Dot => k <= 8
    case Question => k <= 8
    case LBrace => true
    case _ => false
  }

  /** What a printed expression starts with. */
  predicate Starts(k: nat, t: Tok) {
    || Atomic(t) || t == TSelf || t.TIdent? || t == LParen || t == LBracket
    || (k <= 7 && (t == TOp(Sub) || t == Bang))
  }

  lemma {:induction false} FirstToken(e: Expr, k: nat, rest: seq<Tok>)
    requires Printable(e)
    ensures Print(e, k, rest) != [] && Starts(k, Print(e, k, rest)[0])
    decreases e, 1
  {
    FirstNatural(e, if Level(e) < k then [RParen] + rest else rest);
  }

  lemma {:induction false} FirstNatural(e: Expr, rest: seq<Tok>)
    requires Printable(e)
    ensures Natural(e, rest) != [] && Starts(if Level(e) <= 7 then 0 else 8, Natural(e, rest)[0])
    decreases e, 0
  {
    match e
    case EBin(op, l, r) => FirstToken(l, LeftLevel(op), [TOp(op)] + Print(r, RightLevel(op), rest));
    case ERange(incl, lo, hi) => FirstToken(lo, 5, [if incl then DotDotEq else DotDot] + Print(hi, 5, rest));
    case ERepeat(l, r) => FirstToken(l, 7, [Pow] + Print(r, 7, rest));
    case ECall(f, _) => FirstToken(f, CalleeLevel(f), [LParen] + PrintList(e, 0, [RParen] + rest));
    case EIndex(o, i) => FirstToken(o, 8, [LBracket] + Print(i, 0, [RBracket] + rest));
    case EMember(o, name) => FirstToken(o, 8, [Dot] + ([TIdent(name)] + rest));
    case ETry(o) => FirstToken(o, 8, [Question] + rest);
    case _ =>
  }

  // ---------- Brackets inside are balanced ----------

  lemma Skip(t: Tok, rest: seq<Tok>, depth: nat)
    requires t != LBracket && t != RBracket && t != Eof
    ensures CallFollows([t] + rest, depth) == CallFollows(rest, depth)
  {
    assert ([t] + rest)[1..] == rest;
  }

  lemma Enter(rest: seq<Tok>, depth: nat)
    ensures CallFollows([LBracket] + rest, depth) == CallFollows(rest, depth + 1)
    ensures depth > 0 ==> CallFollows([RBracket] + rest, depth + 1) == CallFollows(rest, depth)
    ensures CallFollows([RBracket] + rest, 1) == (Peek(rest) == LParen)
  {
    assert ([LBracket] + rest)[1..] == rest && ([RBracket] + rest)[1..] == rest;
  }

  lemma {:induction false} ScanOver(e: Expr, k: nat, rest: seq<Tok>, depth: nat)
    requires Printable(e) && depth > 0
    ensures CallFollows(Print(e, k, rest), depth) == CallFollows(rest, depth)
    decreases e, 1, 0
  {
    if Level(e) < k {
      Skip(LParen, Natural(e, [RParen] + rest), depth);
      ScanNatural(e, [RParen] + rest, depth);
      Skip(RParen, rest, depth);
    } else {
      ScanNatural(e, rest, depth);
    }
  }

  /** Two operands around a token, inside `e`. */
  lemma {:induction false} ScanTwo(e: Expr, l: Expr, kl: nat, t: Tok, r: Expr, kr: nat, rest: seq<Tok>, depth: nat)
    requires l < e && r < e && Printable(l) && Printable(r) && depth > 0 && t != LBracket && t != RBracket && t != Eof
    ensures CallFollows(Print(l, kl, [t] + Print(r, kr, rest)), depth) == CallFollows(rest, depth)
    decreases e, 0, 0
  {
    ScanOver(l, kl, [t] + Print(r, kr, rest), depth);
    Skip(t, Print(r, kr, rest), depth);
    ScanOver(r, kr, rest, depth);
  }

  lemma {:induction false} ScanNatural(e: Expr, rest: seq<Tok>, depth: nat)
    requires Printable(e) && depth > 0
    ensures CallFollows(Natural(e, rest), depth) == CallFollows(rest, depth)
    decreases e, 0, |Kids(e)| + 2
  {
    match e
    case EAtom(t) => Skip(t, rest, depth);
    case EIdent(x) => Skip(if x == "self" then TSelf else TIdent(x), rest, depth);
    case EBin(op, l, r) => ScanTwo(e, l, LeftLevel(op), TOp(op), r, RightLevel(op), rest, depth);
    case ERange(incl, lo, hi) => ScanTwo(e, lo, 5, if incl then DotDotEq else DotDot, hi, 5, rest, depth);
    case ERepeat(l, r) => ScanTwo(e, l, 7, Pow, r, 7, rest, depth);
    case EUn(neg, arg) =>
      Skip(if neg then TOp(Sub) else Bang, Print(arg, 7, rest), depth);
      ScanOver(arg, 7, rest, depth);
    case ECall(f, _) =>
      ScanOver(f, CalleeLevel(f), [LParen] + PrintList(e, 0, [RParen] + rest), depth);
      ScanParens(e, rest, depth);
    case EIndex(o, i) =>
      ScanOver(o, 8, [LBracket] + Print(i, 0, [RBracket] + rest), depth);
      Enter(Print(i, 0, [RBracket] + rest), depth);
      ScanOver(i, 0, [RBracket] + rest, depth + 1);
      Enter(rest, depth);
    case EMember(o, name) =>
      ScanOver(o, 8, [Dot] + ([TIdent(name)] + rest), depth);
      Skip(Dot, [TIdent(name)] + rest, depth);
      Skip(TIdent(name), rest, depth);
    case ETry(o) =>
      ScanOver(o, 8, [Question] + rest, depth);
      Skip(Question, rest, depth);
    case ETuple(_) => ScanParens(e, rest, depth);
    case EArray(_) =>
      Enter(PrintList(e, 0, [RBracket] + rest), depth);
      ScanList(e, 0, [RBracket] + rest, depth + 1);
      Enter(rest, depth);
  }

  lemma {:induction false} ScanParens(e: Expr, rest: seq<Tok>, depth: nat)
    requires Printable(e) && depth > 0
    ensures CallFollows([LParen] + PrintList(e, 0, [RParen] + rest), depth) == CallFollows(rest, depth)
    decreases e, 0, |Kids(e)| + 1
  {
    Skip(LParen, PrintList(e, 0, [RParen] + rest), depth);
    ScanList(e, 0, [RParen] + rest, depth);
    Skip(RParen, rest, depth);
  }

  lemma {:induction false} ScanList(e: Expr, i: nat, rest: seq<Tok>, depth: nat)
    requires Printable(e) && i <= |Kids(e)| && depth > 0
    ensures CallFollows(PrintList(e, i, rest), depth) == CallFollows(rest, depth)
    decreases e, 0, |Kids(e)| - i
  {
    if i < |Kids(e)| {
      KidFacts(e, i);
      ScanOver(Kids(e)[i], 0, if i + 1 == |Kids(e)| then rest else [Comma] + PrintList(e, i + 1, rest), depth);
      if i + 1 < |Kids(e)| {
        Skip(Comma, PrintList(e, i + 1, rest), depth);
        ScanList(e, i + 1, rest, depth);
      }
    }
  }

  lemma KidFacts(e: Expr, i: nat)
    requires Printable(e) && i < |Kids(e)|
    ensures Printable(Kids(e)[i]) && Kids(e)[i] < e
    ensures NeedList(e, i) == Max(Need(Kids(e)[i], 0), NeedList(e, i + 1))
  {
  }

  // ---------- Parsing what was printed ----------

  /** Level `k` reads `Print(e, k, rest)` and stops at `rest`. */
  lemma {:induction false} ParsePrint(e: Expr, k: nat, rest: seq<Tok>, d: nat, s: bool)
    requires Printable(e) && k <= 9 && !Continues(k, Peek(rest)) && d + Need(e, k) <= MAX_DEPTH
    ensures Parse(k, Print(e, k, rest), d, s) == Res(e, rest, 0)
    decreases e, if Level(e) < k then 1 else 0, 9 - k, 4, 0
  {
    hide Parse, Print, Natural, Need, NeedNatural, NeedList, Primary, List;
    if k == 0 || k == 1 || k == 2 || k == 5 || k == 6 {
      ParseChain(e, k, rest, d, s);
    } else if k == 3 || k == 4 {
      ParseOnce(e, k, rest, d, s);
    } else if k == 7 {
      ParseUnary(e, rest, d, s);
    } else if k == 8 {
      ParsePostfix(e, 8, rest, d, s);
    } else {
      ParsePrimary(e, rest, d, s);
    }
  }

  lemma SameText(e: Expr, k: nat, rest: seq<Tok>)
    requires Level(e) != k
    ensures Print(e, k, rest) == Print(e, k + 1, rest) && Need(e, k) == Need(e, k + 1)
  {
  }

  /** A left-leaning level reads `e` as its first operands, and goes on. */
  lemma {:induction false} ParseChain(e: Expr, k: nat, rest: seq<Tok>, d: nat, s: bool)
    requires Printable(e) && (k == 0 || k == 1 || k == 2 || k == 5 || k == 6)
    requires !Continues(k + 1, Peek(rest)) && Peek(rest) != Pow && d + Need(e, k) <= MAX_DEPTH
    ensures Parse(k, Print(e, k, rest), d, s) == Loop(k, e, rest, d, s, 0)
    decreases e, if Level(e) < k then 1 else 0, 9 - k, 3, 0
  {
    if Level(e) != k {
      SameText(e, k, rest);
      ParsePrint(e, k + 1, rest, d, s);
    } else if e.ERepeat? {
      var right := Print(e.r, 7, rest);
      ParsePrint(e.l, 7, [Pow] + right, d, s);
      ParsePrint(e.r, 7, rest, d, s);
      assert Natural(e, rest) == Print(e.l, 7, [Pow] + right);
      RepeatStep(Natural(e, rest), e.l, right, e.r, rest, d, s);
    } else {
      ParseBin(e, k, rest, d, s);
    }
  }

  lemma RepeatStep(ts: seq<Tok>, l: Expr, right: seq<Tok>, r: Expr, rest: seq<Tok>, d: nat, s: bool)
    requires Parse(7, ts, d, s) == Res(l, [Pow] + right, 0) && Parse(7, right, d, s) == Res(r, rest, 0)
    ensures Parse(6, ts, d, s) == Loop(6, ERepeat(l, r), rest, d, s, 0)
  {
    assert ([Pow] + right)[1..] == right;
  }

  lemma {:induction false} ParseBin(e: Expr, k: nat, rest: seq<Tok>, d: nat, s: bool)
    requires Printable(e) && e.EBin? && OpLevel(e.op) == k && k != 3
    requires !Continues(k + 1, Peek(rest)) && Peek(rest) != Pow && d + Need(e, k) <= MAX_DEPTH
    ensures Parse(k, Natural(e, rest), d, s) == Loop(k, e, rest, d, s, 0)
    decreases e, 0, 9 - k, 2, 0
  {
    ParseChain(e.l, k, [TOp(e.op)] + Print(e.r, k + 1, rest), d, s);
    FinishBin(e, k, rest, d, s);
  }

  lemma {:induction false} FinishBin(e: Expr, k: nat, rest: seq<Tok>, d: nat, s: bool)
    requires Printable(e) && e.EBin? && OpLevel(e.op) == k && k != 3
    requires !Continues(k + 1, Peek(rest)) && d + Need(e.r, k + 1) <= MAX_DEPTH
    ensures Loop(k, e.l, [TOp(e.op)] + Print(e.r, k + 1, rest), d, s, 0) == Loop(k, e, rest, d, s, 0)
    decreases e, 0, 9 - k, 1, 0
  {
    var tail := [TOp(e.op)] + Print(e.r, k + 1, rest);
    ParsePrint(e.r, k + 1, rest, d, s);
    assert tail[1..] == Print(e.r, k + 1, rest);
    LoopOnce(k, e.op, e.l, tail, d, s, Res(e.r, rest, 0));
  }

  /** One turn of the loop of a left-leaning level. */
  lemma LoopOnce(k: nat, op: Op, lhs: Expr, ts: seq<Tok>, d: nat, s: bool, r: Res)
    requires k < 9 && OpAt(k, TOp(op)) && ts != [] && ts[0] == TOp(op) && Parse(k + 1, ts[1..], d, s) == r
    requires r.errs == 0
    ensures Loop(k, lhs, ts, d, s, 0) == Loop(k, EBin(op, lhs, r.e), r.rest, d, s, 0)
  {
  }

  /** Comparisons and ranges: one operator at most. */
  lemma {:induction false} ParseOnce(e: Expr, k: nat, rest: seq<Tok>, d: nat, s: bool)
    requires Printable(e) && (k == 3 || k == 4) && !Continues(k, Peek(rest)) && d + Need(e, k) <= MAX_DEPTH
    ensures Parse(k, Print(e, k, rest), d, s) == Res(e, rest, 0)
    decreases e, if Level(e) < k then 1 else 0, 9 - k, 3, 0
  {
    hide Natural, Need, NeedList, Postfix, Primary, Suffix, List;
    if Level(e) != k {
      SameText(e, k, rest);
      ParsePrint(e, k + 1, rest, d, s);
    } else if e.EBin? {
      ParseComparison(e, rest, d, s);
    } else if e.ERange? {
      ParseRange(e, rest, d, s);
    }
  }

  lemma {:induction false} ParseComparison(e: Expr, rest: seq<Tok>, d: nat, s: bool)
    requires Printable(e) && e.EBin? && OpLevel(e.op) == 3 && !Continues(3, Peek(rest)) && d + Need(e, 3) <= MAX_DEPTH
    ensures Parse(3, Natural(e, rest), d, s) == Res(e, rest, 0)
    decreases e, 0, 6, 2, 0
  {
    var right := Print(e.r, 4, rest);
    ParsePrint(e.l, 4, [TOp(e.op)] + right, d, s);
    ParsePrint(e.r, 4, rest, d, s);
    assert Natural(e, rest) == Print(e.l, 4, [TOp(e.op)] + right);
    CompareStep(Natural(e, rest), e.l, e.op, right, e.r, rest, d, s);
  }

  lemma {:induction false} ParseRange(e: Expr, rest: seq<Tok>, d: nat, s: bool)
    requires Printable(e) && e.ERange? && !Continues(4, Peek(rest)) && d + Need(e, 4) <= MAX_DEPTH
    ensures Parse(4, Natural(e, rest), d, s) == Res(e, rest, 0)
    decreases e, 0, 5, 2, 0
  {
    var right := Print(e.hi, 5, rest);
    ParsePrint(e.lo, 5, [if e.incl then DotDotEq else DotDot] + right, d, s);
    ParsePrint(e.hi, 5, rest, d, s);
    assert Natural(e, rest) == Print(e.lo, 5, [if e.incl then DotDotEq else DotDot] + right);
    RangeStep(Natural(e, rest), e.lo, e.incl, right, e.hi, rest, d, s);
  }

  lemma CompareStep(ts: seq<Tok>, l: Expr, op: Op, right: seq<Tok>, r: Expr, rest: seq<Tok>, d: nat, s: bool)
    requires Parse(4, ts, d, s) == Res(l, [TOp(op)] + right, 0) && Parse(4, right, d, s) == Res(r, rest, 0)
    requires IsCompare(TOp(op)) && !IsCompare(Peek(rest))
    ensures Parse(3, ts, d, s) == Res(EBin(op, l, r), rest, 0)
  {
    assert ([TOp(op)] + right)[1..] == right;
  }

  lemma RangeStep(ts: seq<Tok>, lo: Expr, incl: bool, right: seq<Tok>, hi: Expr, rest: seq<Tok>, d: nat, s: bool)
    requires Parse(5, ts, d, s) == Res(lo, [if incl then DotDotEq else DotDot] + right, 0)
    requires Parse(5, right, d, s) == Res(hi, rest, 0)
    ensures Parse(4, ts, d, s) == Res(ERange(incl, lo, hi), rest, 0)
  {
    assert ([if incl then DotDotEq else DotDot] + right)[1..] == right;
  }

  lemma {:induction false} ParseUnary(e: Expr, rest: seq<Tok>, d: nat, s: bool)
    requires Printable(e) && !Continues(7, Peek(rest)) && d + Need(e, 7) <= MAX_DEPTH
    ensures Parse(7, Print(e, 7, rest), d, s) == Res(e, rest, 0)
    decreases e, if Level(e) < 7 then 1 else 0, 2, 3, 0
  {
    if e.EUn? {
      assert Print(e, 7, rest)[1..] == Print(e.arg, 7, rest);
      ParsePrint(e.arg, 7, rest, d, s);
    } else {
      SameText(e, 7, rest);
      FirstToken(e, 8, rest);
      ParsePrint(e, 8, rest, d, s);
    }
  }

  /** The postfix level reads `e`, asked for at level 8 or 9, and goes on. */
  lemma {:induction false} ParsePostfix(e: Expr, k: nat, rest: seq<Tok>, d: nat, s: bool)
    requires Printable(e) && (k == 8 || k == 9) && d + Need(e, k) <= MAX_DEPTH
    requires Peek(rest) != LBrace && (e.EIndex? && k == 8 ==> Peek(rest) != LParen)
    ensures Parse(8, Print(e, k, rest), d, s) == Postfix(e, rest, d + 1, 0)
    decreases e, if Level(e) < k then 1 else 0, 9 - k, 3, 0
  {
    if Level(e) != 8 || k == 9 {
      if k == 8 {
        SameText(e, 8, rest);
      }
      ParsePrimary(e, rest, d, s);
    } else if e.ECall? {
      ParseCall(e, rest, d, s);
    } else if e.EIndex? {
      ParseIndex(e, rest, d, s);
    } else if e.EMember? {
      ParseMember(e, rest, d, s);
    } else if e.ETry? {
      ParseTry(e, rest, d, s);
    }
  }

  lemma {:induction false} ParseMember(e: Expr, rest: seq<Tok>, d: nat, s: bool)
    requires Printable(e) && e.EMember? && d + Need(e.o, 8) <= MAX_DEPTH
    ensures Parse(8, Natural(e, rest), d, s) == Postfix(e, rest, d + 1, 0)
    decreases e, 0, 1, 2, 0
  {
    ParsePostfix(e.o, 8, [Dot] + ([TIdent(e.name)] + rest), d, s);
    MemberStep(e.o, e.name, rest, d + 1);
  }

  lemma {:induction false} ParseTry(e: Expr, rest: seq<Tok>, d: nat, s: bool)
    requires Printable(e) && e.ETry? && d + Need(e.o, 8) <= MAX_DEPTH
    ensures Parse(8, Natural(e, rest), d, s) == Postfix(e, rest, d + 1, 0)
    decreases e, 0, 1, 2, 0
  {
    ParsePostfix(e.o, 8, [Question] + rest, d, s);
    TryStep(e.o, rest, d + 1);
  }

  lemma MemberStep(o: Expr, name: string, rest: seq<Tok>, d: nat)
    requires d <= MAX_DEPTH
    ensures Postfix(o, [Dot] + ([TIdent(name)] + rest), d, 0) == Postfix(EMember(o, name), rest, d, 0)
  {
    var ts := [Dot] + ([TIdent(name)] + rest);
    assert ts[1..] == [TIdent(name)] + rest && ts[2..] == rest;
  }

  lemma TryStep(o: Expr, rest: seq<Tok>, d: nat)
    requires d <= MAX_DEPTH
    ensures Postfix(o, [Question] + rest, d, 0) == Postfix(ETry(o), rest, d, 0)
  {
    assert ([Question] + rest)[1..] == rest;
  }

  lemma {:induction false} ParseCall(e: Expr, rest: seq<Tok>, d: nat, s: bool)
    requires Printable(e) && e.ECall? && d + Need(e.f, CalleeLevel(e.f)) <= MAX_DEPTH
    requires d + 1 + NeedList(e, 0) <= MAX_DEPTH
    ensures Parse(8, Natural(e, rest), d, s) == Postfix(e, rest, d + 1, 0)
    decreases e, 0, 1, 2, 0
  {
    ParsePostfix(e.f, CalleeLevel(e.f), [LParen] + PrintList(e, 0, [RParen] + rest), d, s);
    FinishCall(e, rest, d + 1);
  }

  lemma {:induction false} FinishCall(e: Expr, rest: seq<Tok>, d: nat)
    requires Printable(e) && e.ECall? && d + NeedList(e, 0) <= MAX_DEPTH
    ensures Postfix(e.f, [LParen] + PrintList(e, 0, [RParen] + rest), d, 0) == Postfix(e, rest, d, 0)
    decreases e, 0, 1, 1, 1
  {
    ParseArgs(e, rest, d);
    CallStep(e.f, PrintList(e, 0, [RParen] + rest), d, e.args, rest);
  }

  lemma {:induction false} ParseArgs(e: Expr, rest: seq<Tok>, d: nat)
    requires Printable(e) && e.ECall? && d + NeedList(e, 0) <= MAX_DEPTH
    ensures List([], PrintList(e, 0, [RParen] + rest), d, RParen, 0) == ListRes(e.args, [RParen] + rest, 0)
    decreases e, 0, 1, 1, 0
  {
    ParseList(e, 0, [], [RParen] + rest, d, RParen);
    assert [] + Kids(e)[0..] == e.args;
  }

  lemma CallStep(f: Expr, ts: seq<Tok>, d: nat, args: seq<Expr>, rest: seq<Tok>)
    requires d <= MAX_DEPTH && List([], ts, d, RParen, 0) == ListRes(args, [RParen] + rest, 0)
    ensures Postfix(f, [LParen] + ts, d, 0) == Postfix(ECall(f, args), rest, d, 0)
  {
    var all := [LParen] + ts;
    assert all[1..] == ts && ([RParen] + rest)[1..] == rest;
    assert CallSuffix(f, all, d, 0) == Res(ECall(f, args), rest, 0);
    assert Suffix(f, all, d, 0) == Suffixed(Res(ECall(f, args), rest, 0), true);
  }

  lemma {:induction false} ParseIndex(e: Expr, rest: seq<Tok>, d: nat, s: bool)
    requires Printable(e) && e.EIndex? && d + Need(e, 8) <= MAX_DEPTH && Peek(rest) != LParen
    ensures Parse(8, Natural(e, rest), d, s) == Postfix(e, rest, d + 1, 0)
    decreases e, 0, 1, 2, 0
  {
    ParsePostfix(e.o, 8, [LBracket] + Print(e.i, 0, [RBracket] + rest), d, s);
    FinishIndex(e, rest, d + 1);
  }

  lemma {:induction false} FinishIndex(e: Expr, rest: seq<Tok>, d: nat)
    requires Printable(e) && e.EIndex? && d + Need(e.i, 0) <= MAX_DEPTH && Peek(rest) != LParen
    ensures Postfix(e.o, [LBracket] + Print(e.i, 0, [RBracket] + rest), d, 0) == Postfix(e, rest, d, 0)
    decreases e, 0, 1, 1, 1
  {
    ParsePrint(e.i, 0, [RBracket] + rest, d, true);
    NoTypeArgs(e.i, rest);
    IndexStep(e.o, Print(e.i, 0, [RBracket] + rest), d, e.i, rest);
  }

  /** An index with no `(` behind it is not taken for type arguments. */
  lemma NoTypeArgs(i: Expr, rest: seq<Tok>)
    requires Printable(i) && Peek(rest) != LParen
    ensures !CallFollows([LBracket] + Print(i, 0, [RBracket] + rest), 0)
  {
    Enter(Print(i, 0, [RBracket] + rest), 0);
    ScanOver(i, 0, [RBracket] + rest, 1);
    Enter(rest, 0);
  }

  lemma IndexStep(o: Expr, ts: seq<Tok>, d: nat, i: Expr, rest: seq<Tok>)
    requires d <= MAX_DEPTH && Parse(0, ts, d, true) == Res(i, [RBracket] + rest, 0) && !CallFollows([LBracket] + ts, 0)
    ensures Postfix(o, [LBracket] + ts, d, 0) == Postfix(EIndex(o, i), rest, d, 0)
  {
    var all := [LBracket] + ts;
    assert all[1..] == ts && ([RBracket] + rest)[1..] == rest;
    assert IndexSuffix(o, all, d, 0) == Suffixed(Res(EIndex(o, i), rest, 0), true);
    assert Suffix(o, all, d, 0) == Suffixed(Res(EIndex(o, i), rest, 0), true);
  }

  lemma {:induction false} ParseList(e: Expr, i: nat, acc: seq<Expr>, rest: seq<Tok>, d: nat, close: Tok)
    requires Printable(e) && i <= |Kids(e)| && d + NeedList(e, i) <= MAX_DEPTH
    requires (close == RParen || close == RBracket) && Peek(rest) == close
    ensures List(acc, PrintList(e, i, rest), d, close, 0) == ListRes(acc + Kids(e)[i..], rest, 0)
    decreases e, 0, 0, 0, |Kids(e)| - i
  {
    if i == |Kids(e)| {
      assert acc + Kids(e)[i..] == acc;
    } else {
      var x := Kids(e)[i];
      KidFacts(e, i);
      var last := i + 1 == |Kids(e)|;
      var after := if last then [] else PrintList(e, i + 1, rest);
      var tail := if last then rest else [Comma] + after;
      FirstToken(x, 0, tail);
      ParsePrint(x, 0, tail, d, true);
      if !last {
        ParseList(e, i + 1, acc + [x], rest, d, close);
      }
      assert acc + Kids(e)[i..] == acc + [x] + Kids(e)[i + 1..];
      ListStep(acc, Print(x, 0, tail), d, close, x, tail, after);
    }
  }

  /** One element of a list. */
  lemma ListStep(acc: seq<Expr>, ts: seq<Tok>, d: nat, close: Tok, x: Expr, tail: seq<Tok>, after: seq<Tok>)
    requires Peek(tail) != Comma || tail == [Comma] + after
    requires ts != [] && Starts(0, ts[0]) && (close == RParen || close == RBracket)
      && Parse(0, ts, d, true) == Res(x, tail, 0)
    ensures List(acc, ts, d, close, 0) ==
      if Peek(tail) != Comma then ListRes(acc + [x], tail, 0) else List(acc + [x], after, d, close, 0)
  {
    if Peek(tail) == Comma {
      assert tail[1..] == after;
    }
  }

  lemma {:induction false} ParsePrimary(e: Expr, rest: seq<Tok>, d: nat, s: bool)
    requires Printable(e) && d + Need(e, 9) <= MAX_DEPTH && Peek(rest) != LBrace
    ensures Parse(9, Print(e, 9, rest), d, s) == Res(e, rest, 0)
    decreases e, if Level(e) < 9 then 1 else 0, 0, 2, 0
  {
    if Level(e) < 9 {
      ParseParens(e, rest, d, s);
    } else if e.ETuple? {
      ParseTuple(e, rest, d, s);
    } else if e.EArray? {
      ParseArray(e, rest, d, s);
    } else if e.EIdent? {
      NameStep(e.x, rest, d, s);
    } else if e.EAtom? {
      assert ([e.t] + rest)[1..] == rest;
    }
  }

  lemma {:induction false} ParseParens(e: Expr, rest: seq<Tok>, d: nat, s: bool)
    requires Printable(e) && d + 1 + Need(e, 0) <= MAX_DEPTH
    ensures Parse(9, [LParen] + Print(e, 0, [RParen] + rest), d, s) == Res(e, rest, 0)
    decreases e, 1, 0, 1, 0
  {
    var tail := [RParen] + rest;
    FirstToken(e, 0, tail);
    ParsePrint(e, 0, tail, d + 1, true);
    ParenStep(Print(e, 0, tail), d, s, e, tail);
    assert tail[1..] == rest;
  }

  lemma {:induction false} ParseArray(e: Expr, rest: seq<Tok>, d: nat, s: bool)
    requires Printable(e) && e.EArray? && d + 1 + NeedList(e, 0) <= MAX_DEPTH
    ensures Parse(9, Natural(e, rest), d, s) == Res(e, rest, 0)
    decreases e, 0, 0, 1, 0
  {
    ParseList(e, 0, [], [RBracket] + rest, d + 1, RBracket);
    assert [] + Kids(e)[0..] == e.elems;
    ArrayStep(PrintList(e, 0, [RBracket] + rest), d, s, e.elems, rest);
  }

  lemma NameStep(x: string, rest: seq<Tok>, d: nat, s: bool)
    requires d < MAX_DEPTH && Peek(rest) != LBrace
    ensures Parse(9, [if x == "self" then TSelf else TIdent(x)] + rest, d, s) == Res(EIdent(x), rest, 0)
  {
    assert ([if x == "self" then TSelf else TIdent(x)] + rest)[1..] == rest;
  }

  lemma ArrayStep(ts: seq<Tok>, d: nat, s: bool, es: seq<Expr>, rest: seq<Tok>)
    requires d < MAX_DEPTH && List([], ts, d + 1, RBracket, 0) == ListRes(es, [RBracket] + rest, 0)
    ensures Parse(9, [LBracket] + ts, d, s) == Res(EArray(es), rest, 0)
  {
    assert ([LBracket] + ts)[1..] == ts && ([RBracket] + rest)[1..] == rest;
  }

  /** After `(` and one expression: a tuple when a comma follows, else that. */
  lemma ParenStep(ts: seq<Tok>, d: nat, s: bool, x: Expr, tail: seq<Tok>)
    requires d < MAX_DEPTH && ts != [] && Starts(0, ts[0]) && Parse(0, ts, d + 1, true) == Res(x, tail, 0)
    ensures Parse(9, [LParen] + ts, d, s) ==
      var all := if Peek(tail) == Comma then List([x], tail[1..], d + 1, RParen, 0) else ListRes([x], tail, 0);
      Expect(RParen, Res(if |all.es| == 1 then x else ETuple(all.es), all.rest, all.errs))
  {
    assert ([LParen] + ts)[1..] == ts;
  }

  lemma EmptyStep(rest: seq<Tok>, d: nat, s: bool)
    requires d < MAX_DEPTH
    ensures Parse(9, [LParen] + ([RParen] + rest), d, s) == Res(ETuple([]), rest, 0)
  {
    var ts := [LParen] + ([RParen] + rest);
    assert ts[1..] == [RParen] + rest && ts[2..] == rest;
  }

  /** A tuple of two or more, whose first element and rest are read as said. */
  lemma TupleStep(ts: seq<Tok>, d: nat, s: bool, x: Expr, after: seq<Tok>, es: seq<Expr>, rest: seq<Tok>)
    requires d < MAX_DEPTH && ts != [] && Starts(0, ts[0]) && |es| > 1
    requires Parse(0, ts, d + 1, true) == Res(x, [Comma] + after, 0)
    requires List([x], after, d + 1, RParen, 0) == ListRes(es, [RParen] + rest, 0)
    ensures Parse(9, [LParen] + ts, d, s) == Res(ETuple(es), rest, 0)
  {
    ParenStep(ts, d, s, x, [Comma] + after);
    assert ([Comma] + after)[1..] == after && ([RParen] + rest)[1..] == rest;
  }

  lemma {:induction false} ParseTuple(e: Expr, rest: seq<Tok>, d: nat, s: bool)
    requires Printable(e) && e.ETuple? && d + 1 + NeedList(e, 0) <= MAX_DEPTH
    ensures Parse(9, Natural(e, rest), d, s) == Res(e, rest, 0)
    decreases e, 0, 0, 1, 0
  {
    var tail := [RParen] + rest;
    if e.elems == [] {
      EmptyStep(rest, d, s);
    } else {
      var x, after := Kids(e)[0], PrintList(e, 1, tail);
      KidFacts(e, 0);
      FirstToken(x, 0, [Comma] + after);
      ParsePrint(x, 0, [Comma] + after, d + 1, true);
      ParseList(e, 1, [x], tail, d + 1, RParen);
      assert [x] + Kids(e)[1..] == e.elems;
      assert Natural(e, rest) == [LParen] + Print(x, 0, [Comma] + after);
      TupleStep(Print(x, 0, [Comma] + after), d, s, x, after, e.elems, rest);
    }
  }

  /** The round trip on a whole input. */
  lemma PrintThenParse(e: Expr)
    requires Printable(e) && Need(e, 0) <= MAX_DEPTH
    ensures Parse(0, Print(e, 0, []), 0, true) == Res(e, [], 0)
  {
    ParsePrint(e, 0, [], 0, true);
  }

  /** So different trees are printed differently. */
  lemma PrintIsInjective(a: Expr, b: Expr)
    requires Printable(a) && Printable(b) && Need(a, 0) <= MAX_DEPTH && Need(b, 0) <= MAX_DEPTH
    requires Print(a, 0, []) == Print(b, 0, [])
    ensures a == b
  {
    PrintThenParse(a);
    PrintThenParse(b);
  }
}
