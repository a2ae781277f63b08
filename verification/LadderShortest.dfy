/** No printed parentheses can be spared: of all the texts that the ladder reads as
    a tree without a diagnostic, the printed one is a shortest. The proof follows
    the parser and counts: what it takes from the input is at least as long as the
    printed form of what it gives for it. */
module LadderShortest {
  import opened Ladder
  import opened LadderRoundTrip

  // ---------- How long the printed form is ----------

  /** The number of tokens of `e` where level `k` is asked for. */
  function Size(e: Expr, k: nat): nat { |Print(e, k, [])| }

  /** The number of tokens of the listed expressions, with a comma behind each. */
  function Total(es: seq<Expr>): nat {
    if es == [] then 0 else Size(es[0], 0) + 1 + Total(es[1..])
  }

  lemma {:induction false} TotalGrows(es: seq<Expr>, x: Expr)
    ensures Total(es + [x]) == Total(es) + Size(x, 0) + 1
  {
    if es == [] {
      assert es + [x] == [x] && [x][1..] == [];
    } else {
      TotalGrows(es[1..], x);
      assert (es + [x])[1..] == es[1..] + [x];
    }
  }

  lemma {:induction false} PrintLength(e: Expr, k: nat, rest: seq<Tok>)
    ensures |Print(e, k, rest)| == Size(e, k) + |rest|
    decreases e, 2, 0
  {
    if Level(e) < k {
      NaturalLength(e, [RParen] + rest);
      NaturalLength(e, [RParen] + []);
    } else {
      NaturalLength(e, rest);
    }
  }

  lemma {:induction false} NaturalLength(e: Expr, rest: seq<Tok>)
    ensures |Natural(e, rest)| == |Natural(e, [])| + |rest|
    decreases e, 1, 0
  {
    match e
    case EBin(op, l, r) => TwoLength(e, l, LeftLevel(op), TOp(op), r, RightLevel(op), rest);
    case ERange(incl, lo, hi) => TwoLength(e, lo, 5, if incl then DotDotEq else DotDot, hi, 5, rest);
    case ERepeat(l, r) => TwoLength(e, l, 7, Pow, r, 7, rest);
    case EUn(neg, arg) =>
      PrintLength(arg, 7, rest);
    case ECall(f, _) =>
      PrintLength(f, CalleeLevel(f), [LParen] + PrintList(e, 0, [RParen] + rest));
      PrintLength(f, CalleeLevel(f), [LParen] + PrintList(e, 0, [RParen] + []));
      ListLength(e, 0, [RParen] + rest);
      ListLength(e, 0, [RParen] + []);
    case EIndex(o, i) =>
      TwoLength(e, o, 8, LBracket, i, 0, [RBracket] + rest);
      TwoLength(e, o, 8, LBracket, i, 0, [RBracket] + []);
    case EMember(o, name) =>
      PrintLength(o, 8, [Dot] + ([TIdent(name)] + rest));
      PrintLength(o, 8, [Dot] + ([TIdent(name)] + []));
    case ETry(o) =>
      PrintLength(o, 8, [Question] + rest);
      PrintLength(o, 8, [Question] + []);
    case ETuple(_) =>
      ListLength(e, 0, [RParen] + rest);
      ListLength(e, 0, [RParen] + []);
    case EArray(_) =>
      ListLength(e, 0, [RBracket] + rest);
      ListLength(e, 0, [RBracket] + []);
    case _ =>
  }

  /** Two operands around a token, inside `e`. */
  lemma {:induction false} TwoLength(e: Expr, l: Expr, kl: nat, t: Tok, r: Expr, kr: nat, rest: seq<Tok>)
    requires l < e && r < e
    ensures |Print(l, kl, [t] + Print(r, kr, rest))| == Size(l, kl) + 1 + Size(r, kr) + |rest|
    ensures |Print(l, kl, [t] + Print(r, kr, []))| == Size(l, kl) + 1 + Size(r, kr)
    decreases e, 0, 0
  {
    PrintLength(l, kl, [t] + Print(r, kr, rest));
    PrintLength(l, kl, [t] + Print(r, kr, []));
    PrintLength(r, kr, rest);
  }

  lemma {:induction false} ListLength(e: Expr, i: nat, rest: seq<Tok>)
    requires i <= |Kids(e)|
    ensures |PrintList(e, i, rest)| == |rest| + if i == |Kids(e)| then 0 else Total(Kids(e)[i..]) - 1
    decreases e, 0, |Kids(e)| - i
  {
    if i < |Kids(e)| {
      var x := Kids(e)[i];
      assert x < e;
      assert Kids(e)[i..][1..] == Kids(e)[i + 1..];
      if i + 1 == |Kids(e)| {
        PrintLength(x, 0, rest);
      } else {
        PrintLength(x, 0, [Comma] + PrintList(e, i + 1, rest));
        ListLength(e, i + 1, rest);
      }
    }
  }

  /** The printed sizes of what the ladder builds. */
  lemma BinSize(op: Op, l: Expr, r: Expr)
    ensures Size(EBin(op, l, r), OpLevel(op)) == Size(l, LeftLevel(op)) + 1 + Size(r, RightLevel(op))
  {
    var e := EBin(op, l, r);
    TwoLength(e, l, LeftLevel(op), TOp(op), r, RightLevel(op), []);
    assert Natural(e, []) == Print(l, LeftLevel(op), [TOp(op)] + Print(r, RightLevel(op), []));
  }

  lemma RangeSize(incl: bool, l: Expr, r: Expr)
    ensures Size(ERange(incl, l, r), 4) == Size(l, 5) + 1 + Size(r, 5)
  {
    var e, t := ERange(incl, l, r), if incl then DotDotEq else DotDot;
    TwoLength(e, l, 5, t, r, 5, []);
    assert Natural(e, []) == Print(l, 5, [t] + Print(r, 5, []));
  }

  lemma RepeatSize(l: Expr, r: Expr)
    ensures Size(ERepeat(l, r), 6) == Size(l, 7) + 1 + Size(r, 7)
  {
    var e := ERepeat(l, r);
    TwoLength(e, l, 7, Pow, r, 7, []);
    assert Natural(e, []) == Print(l, 7, [Pow] + Print(r, 7, []));
  }

  lemma UnarySize(neg: bool, x: Expr)
    ensures Size(EUn(neg, x), 7) == 1 + Size(x, 7)
  {
    assert Natural(EUn(neg, x), []) == [if neg then TOp(Sub) else Bang] + Print(x, 7, []);
  }

  lemma NameSize(t: Tok, x: string)
    ensures Size(EAtom(t), 9) == 1 && Size(EIdent(x), 9) == 1
  {
    assert Natural(EAtom(t), []) == [t] + [];
    assert Natural(EIdent(x), []) == [if x == "self" then TSelf else TIdent(x)] + [];
  }

  lemma CallSize(f: Expr, args: seq<Expr>)
    ensures Size(ECall(f, args), 8) == Size(f, CalleeLevel(f)) + 2 + if args == [] then 0 else Total(args) - 1
  {
    var e := ECall(f, args);
    PrintLength(f, CalleeLevel(f), [LParen] + PrintList(e, 0, [RParen] + []));
    ListLength(e, 0, [RParen] + []);
    assert Kids(e)[0..] == args;
    assert Natural(e, []) == Print(f, CalleeLevel(f), [LParen] + PrintList(e, 0, [RParen] + []));
  }

  lemma IndexSize(o: Expr, i: Expr)
    ensures Size(EIndex(o, i), 8) == Size(o, 8) + 2 + Size(i, 0)
  {
    var e := EIndex(o, i);
    TwoLength(e, o, 8, LBracket, i, 0, [RBracket] + []);
    assert Natural(e, []) == Print(o, 8, [LBracket] + Print(i, 0, [RBracket] + []));
  }

  lemma SuffixSizes(o: Expr, name: string)
    ensures Size(EMember(o, name), 8) == Size(o, 8) + 2 && Size(ETry(o), 8) == Size(o, 8) + 1
  {
    PrintLength(o, 8, [Dot] + ([TIdent(name)] + []));
    PrintLength(o, 8, [Question] + []);
    assert Natural(EMember(o, name), []) == Print(o, 8, [Dot] + ([TIdent(name)] + []));
    assert Natural(ETry(o), []) == Print(o, 8, [Question] + []);
  }

  lemma BracketSizes(es: seq<Expr>)
    ensures Size(ETuple(es), 9) == 2 + if es == [] then 0 else Total(es) - 1
    ensures Size(EArray(es), 9) == 2 + if es == [] then 0 else Total(es) - 1
  {
    ListLength(ETuple(es), 0, [RParen] + []);
    ListLength(EArray(es), 0, [RBracket] + []);
    assert Kids(ETuple(es))[0..] == es && Kids(EArray(es))[0..] == es;
    assert Natural(ETuple(es), []) == [LParen] + PrintList(ETuple(es), 0, [RParen] + []);
    assert Natural(EArray(es), []) == [LBracket] + PrintList(EArray(es), 0, [RBracket] + []);
  }

  /** A tighter level asks for two more tokens at most. */
  lemma TighterSize(e: Expr, j: nat, k: nat)
    requires j <= k
    ensures Size(e, j) <= Size(e, k) <= Size(e, j) + 2
    ensures Level(e) >= k ==> Size(e, k) == Size(e, j)
  {
    NaturalLength(e, [RParen] + []);
  }

  // ---------- What the parser takes ----------

  /** A look ahead over brackets sees past what stands between `ts` and `rest`. */
  ghost predicate Balanced(ts: seq<Tok>, rest: seq<Tok>) {
    forall depth: nat :: depth > 0 ==> CallFollows(ts, depth) == CallFollows(rest, depth)
  }

  /** Unless it reports something, `r` leaves no more of `ts` than pays for the
      growth of a printed form from `had` to `has` tokens, and brackets in between
      are balanced (where something is left). */
  ghost predicate Took(ts: seq<Tok>, had: nat, r: Res, has: nat) {
    r.errs == 0 ==> |ts| + had >= |r.rest| + has && (r.rest != [] ==> Balanced(ts, r.rest))
  }

  lemma BalancedOne(ts: seq<Tok>)
    requires ts != [] && ts[0] != LBracket && ts[0] != RBracket && ts[0] != Eof
    ensures Balanced(ts, ts[1..])
  {
  }

  lemma BalancedTwo(a: seq<Tok>, b: seq<Tok>, c: seq<Tok>)
    requires Balanced(a, b) && Balanced(b, c)
    ensures Balanced(a, c)
  {
    hide CallFollows;
  }

  /** One token in front of what is balanced. */
  lemma BalancedAfter(ts: seq<Tok>, rest: seq<Tok>)
    requires ts != [] && ts[0] != LBracket && ts[0] != RBracket && ts[0] != Eof && Balanced(ts[1..], rest)
    ensures Balanced(ts, rest)
  {
    BalancedOne(ts);
    BalancedTwo(ts, ts[1..], rest);
  }

  /** A pair of brackets around what is balanced. */
  lemma BalancedBrackets(ts: seq<Tok>, inner: seq<Tok>)
    requires Peek(ts) == LBracket && Peek(inner) == RBracket && Balanced(ts[1..], inner)
    ensures Balanced(ts, inner[1..])
    ensures CallFollows(ts, 0) <==> Peek(inner[1..]) == LParen
  {
    forall depth: nat | depth > 0 ensures CallFollows(ts, depth) == CallFollows(inner[1..], depth) {
      assert CallFollows(ts[1..], depth + 1) == CallFollows(inner, depth + 1);
    }
    assert CallFollows(ts[1..], 1) == CallFollows(inner, 1);
  }

  /** What was taken up to `l` and then from there on. */
  lemma Then(ts: seq<Tok>, had: nat, l: Res, mid: nat, r: Res, has: nat)
    requires Took(ts, had, l, mid) && Took(l.rest, mid, r, has)
    requires l.errs <= r.errs && |r.rest| <= |l.rest|
    ensures Took(ts, had, r, has)
  {
    hide CallFollows;
    if r.errs == 0 && r.rest != [] {
      BalancedTwo(ts, l.rest, r.rest);
    }
  }

  /** A token and then the operand `x`, which make `q`. */
  lemma After(ts: seq<Tok>, had: nat, x: Res, n: nat, q: Res)
    requires ts != [] && ts[0] != LBracket && ts[0] != RBracket && ts[0] != Eof
    requires Took(ts[1..], 0, x, n) && q.rest == x.rest && x.errs <= q.errs
    ensures Took(ts, had, q, had + 1 + n)
  {
    hide CallFollows;
    if q.errs == 0 && q.rest != [] {
      BalancedAfter(ts, x.rest);
    }
  }

  lemma Nothing(ts: seq<Tok>, n: nat, q: Res)
    requires q.rest == ts
    ensures Took(ts, n, q, n)
  {
    hide CallFollows;
  }

  lemma {:induction false} LevelTook(k: nat, ts: seq<Tok>, d: nat, s: bool)
    requires k <= 9
    ensures Took(ts, 0, Parse(k, ts, d, s), Size(Parse(k, ts, d, s).e, k))
    decreases |ts|, 20 - k, 0
  {
    hide Took, Print;
    var r := Parse(k, ts, d, s);
    if k == 0 || k == 1 || k == 2 || k == 5 {
      var l := Parse(k + 1, ts, d, s);
      LooserTook(k, ts, d, s);
      LoopTook(k, l.e, l.rest, d, s, l.errs);
      Then(ts, 0, l, Size(l.e, k), r, Size(r.e, k));
    } else if k == 3 {
      var l := Parse(4, ts, d, s);
      LevelTook(4, ts, d, s);
      CompareTook(l.e, l.rest, d, s, l.errs, false);
      Then(ts, 0, l, Size(l.e, 4), r, Size(r.e, 3));
    } else if k == 4 {
      RangeTook(ts, d, s);
    } else if k == 6 {
      RepeatTook(ts, d, s);
    } else if k == 7 {
      UnaryTook(ts, d, s);
    } else if k == 8 {
      var l := Parse(9, ts, d, s);
      LevelTook(9, ts, d, s);
      CostIsLess(ts, l);
      PostfixTook(l.e, l.rest, d + 1, l.errs);
      Then(ts, 0, l, Cost(l.e, l.rest), r, Size(r.e, 8));
    } else {
      PrimaryTook(ts, d, s);
    }
  }

  /** What level `k + 1` gives is no longer where level `k` is asked for. */
  lemma {:induction false} LooserTook(k: nat, ts: seq<Tok>, d: nat, s: bool)
    requires k <= 8
    ensures Took(ts, 0, Parse(k + 1, ts, d, s), Size(Parse(k + 1, ts, d, s).e, k))
    decreases |ts|, 20 - (k + 1), 1
  {
    hide Balanced, Parse, Print;
    LevelTook(k + 1, ts, d, s);
    TighterSize(Parse(k + 1, ts, d, s).e, k, k + 1);
  }

  lemma {:induction false} LoopTook(k: nat, lhs: Expr, ts: seq<Tok>, d: nat, s: bool, errs: nat)
    requires k == 0 || k == 1 || k == 2 || k == 5 || k == 6
    ensures errs <= Loop(k, lhs, ts, d, s, errs).errs
    ensures Took(ts, Size(lhs, k), Loop(k, lhs, ts, d, s, errs), Size(Loop(k, lhs, ts, d, s, errs).e, k))
    decreases |ts|, 0
  {
    hide Took, Print, Parse;
    var r := Loop(k, lhs, ts, d, s, errs);
    if OpAt(k, Peek(ts)) {
      var op, x := ts[0].op, Parse(k + 1, ts[1..], d, s);
      var q := Res(EBin(op, lhs, x.e), x.rest, errs + x.errs);
      LevelTook(k + 1, ts[1..], d, s);
      LoopTook(k, q.e, q.rest, d, s, q.errs);
      BinSize(op, lhs, x.e);
      After(ts, Size(lhs, k), x, Size(x.e, k + 1), q);
      Then(ts, Size(lhs, k), q, Size(q.e, k), r, Size(r.e, k));
    } else {
      Nothing(ts, Size(lhs, k), r);
    }
  }

  lemma {:induction false} CompareTook(lhs: Expr, ts: seq<Tok>, d: nat, s: bool, errs: nat, reported: bool)
    ensures errs <= Compare(lhs, ts, d, s, errs, reported).errs
    ensures !reported ==>
      Took(ts, Size(lhs, 4), Compare(lhs, ts, d, s, errs, reported), Size(Compare(lhs, ts, d, s, errs, reported).e, 3))
    decreases |ts|, 0
  {
    hide Print, Parse, Balanced;
    if IsCompare(Peek(ts)) {
      var op, x := ts[0].op, Parse(4, ts[1..], d, s);
      var b := EBin(op, lhs, x.e);
      if IsCompare(Peek(x.rest)) {
        CompareTook(b, x.rest, d, s, errs + x.errs + if reported then 0 else 1, true);
      } else {
        LevelTook(4, ts[1..], d, s);
        BinSize(op, lhs, x.e);
        After(ts, Size(lhs, 4), x, Size(x.e, 4), Res(b, x.rest, errs + x.errs));
      }
    } else {
      TighterSize(lhs, 3, 4);
      Nothing(ts, Size(lhs, 4), Res(lhs, ts, errs));
    }
  }

  lemma {:induction false} RangeTook(ts: seq<Tok>, d: nat, s: bool)
    ensures Took(ts, 0, Parse(4, ts, d, s), Size(Parse(4, ts, d, s).e, 4))
    decreases |ts|, 15, 2
  {
    hide Print, Took;
    var r, l := Parse(4, ts, d, s), Parse(5, ts, d, s);
    if Peek(l.rest) == DotDot || Peek(l.rest) == DotDotEq {
      var h := Parse(5, l.rest[1..], d, s);
      LevelTook(5, ts, d, s);
      LevelTook(5, l.rest[1..], d, s);
      RangeSize(Peek(l.rest) == DotDotEq, l.e, h.e);
      After(l.rest, Size(l.e, 5), h, Size(h.e, 5), r);
      Then(ts, 0, l, Size(l.e, 5), r, Size(r.e, 4));
    } else {
      LooserTook(4, ts, d, s);
    }
  }

  lemma {:induction false} RepeatTook(ts: seq<Tok>, d: nat, s: bool)
    ensures Took(ts, 0, Parse(6, ts, d, s), Size(Parse(6, ts, d, s).e, 6))
    decreases |ts|, 13, 2
  {
    hide Print, Took;
    var r, l := Parse(6, ts, d, s), Parse(7, ts, d, s);
    if Peek(l.rest) == Pow {
      var h := Parse(7, l.rest[1..], d, s);
      var q := Res(ERepeat(l.e, h.e), h.rest, l.errs + h.errs);
      LevelTook(7, ts, d, s);
      LevelTook(7, l.rest[1..], d, s);
      RepeatSize(l.e, h.e);
      After(l.rest, Size(l.e, 7), h, Size(h.e, 7), q);
      Then(ts, 0, l, Size(l.e, 7), q, Size(q.e, 6));
      LoopTook(6, q.e, q.rest, d, s, q.errs);
      Then(ts, 0, q, Size(q.e, 6), r, Size(r.e, 6));
    } else {
      LooserTook(6, ts, d, s);
      LoopTook(6, l.e, l.rest, d, s, l.errs);
      Then(ts, 0, l, Size(l.e, 6), r, Size(r.e, 6));
    }
  }

  lemma {:induction false} UnaryTook(ts: seq<Tok>, d: nat, s: bool)
    ensures Took(ts, 0, Parse(7, ts, d, s), Size(Parse(7, ts, d, s).e, 7))
    decreases |ts|, 12, 2
  {
    hide Took;
    if Peek(ts) == TOp(Sub) || Peek(ts) == Bang {
      var x := Parse(7, ts[1..], d, s);
      LevelTook(7, ts[1..], d, s);
      UnarySize(Peek(ts) == TOp(Sub), x.e);
      After(ts, 0, x, Size(x.e, 7), Parse(7, ts, d, s));
    } else {
      LooserTook(7, ts, d, s);
    }
  }

  /** The tokens of `e` as the left part of a suffix that starts with `ts`. */
  function Cost(e: Expr, ts: seq<Tok>): nat {
    Size(e, if Peek(ts) == LParen then CalleeLevel(e) else 8)
  }

  lemma CostIsLess(ts: seq<Tok>, l: Res)
    requires Took(ts, 0, l, Size(l.e, 9))
    ensures Took(ts, 0, l, Cost(l.e, l.rest))
  {
    hide Print, Balanced;
    TighterSize(l.e, 8, 9);
  }

  lemma {:induction false} PostfixTook(e: Expr, ts: seq<Tok>, d: nat, errs: nat)
    ensures errs <= Postfix(e, ts, d, errs).errs
    ensures Took(ts, Cost(e, ts), Postfix(e, ts, d, errs), Size(Postfix(e, ts, d, errs).e, 8))
    decreases |ts|, 2
  {
    hide Took, Print, Suffix, Parse;
    var x, r := Suffix(e, ts, d, errs), Postfix(e, ts, d, errs);
    SuffixTook(e, ts, d, errs);
    if x.more {
      PostfixTook(x.r.e, x.r.rest, d, x.r.errs);
      Then(ts, Cost(e, ts), x.r, Cost(x.r.e, x.r.rest), r, Size(r.e, 8));
    } else {
      LastSuffix(ts, Cost(e, ts), x.r);
    }
  }

  lemma LastSuffix(ts: seq<Tok>, had: nat, r: Res)
    requires Took(ts, had, r, Cost(r.e, r.rest))
    ensures Took(ts, had, r, Size(r.e, 8))
  {
    hide Print, Balanced;
    TighterSize(r.e, 8, 9);
  }

  lemma {:induction false} SuffixTook(e: Expr, ts: seq<Tok>, d: nat, errs: nat)
    ensures errs <= Suffix(e, ts, d, errs).r.errs
    ensures var r := Suffix(e, ts, d, errs).r; Took(ts, Cost(e, ts), r, Cost(r.e, r.rest))
    decreases |ts|, 1
  {
    hide Print, Balanced, Parse, List;
    if d <= MAX_DEPTH {
      match Peek(ts)
      case LParen => CallTook(e, ts, d, errs);
      case LBracket => IndexTook(e, ts, d, errs);
      case Dot => MemberTook(e, ts, d, errs);
      case Question =>
        SuffixSizes(e, "");
        BalancedOne(ts);
      case _ => Nothing(ts, Cost(e, ts), Res(e, ts, errs));
    }
  }

  lemma MemberTook(e: Expr, ts: seq<Tok>, d: nat, errs: nat)
    requires d <= MAX_DEPTH && Peek(ts) == Dot
    ensures errs <= Suffix(e, ts, d, errs).r.errs
    ensures var r := Suffix(e, ts, d, errs).r; Took(ts, Cost(e, ts), r, Cost(r.e, r.rest))
  {
    hide Print, Balanced;
    var m := Peek(ts[1..]);
    if m.TIdent? {
      SuffixSizes(e, m.s);
      BalancedOne(ts);
      BalancedOne(ts[1..]);
      BalancedTwo(ts, ts[1..], ts[2..]);
    } else if m.TInt? {
      OutsideSize();
    }
  }

  lemma OutsideSize()
    ensures forall k :: 0 <= k <= 9 ==> Size(EOutside, k) == 0
  {
  }

  lemma {:induction false} CallTook(e: Expr, ts: seq<Tok>, d: nat, errs: nat)
    requires Peek(ts) == LParen
    ensures errs <= CallSuffix(e, ts, d, errs).errs
    ensures var r := CallSuffix(e, ts, d, errs); Took(ts, Cost(e, ts), r, Cost(r.e, r.rest))
    decreases |ts|, 0
  {
    hide Print, CallFollows;
    var a := List([], ts[1..], d, RParen, errs);
    ListTook([], ts[1..], d, RParen, errs);
    if Peek(a.rest) == RParen && a.rest != [] {
      CallSize(e, a.es);
      if a.errs == 0 {
        Enclosed(ts, a.rest);
      }
    }
  }

  lemma Enclosed(ts: seq<Tok>, inner: seq<Tok>)
    requires Peek(ts) == LParen && Peek(inner) == RParen && Balanced(ts[1..], inner)
    ensures Balanced(ts, inner[1..])
  {
    hide CallFollows;
    BalancedAfter(ts, inner);
    BalancedOne(inner);
    BalancedTwo(ts, inner, inner[1..]);
  }

  /** An index is read to its own `]`, so that no `(` can be behind it. */
  lemma {:induction false} IndexTook(o: Expr, ts: seq<Tok>, d: nat, errs: nat)
    requires Peek(ts) == LBracket
    ensures errs <= IndexSuffix(o, ts, d, errs).r.errs
    ensures var r := IndexSuffix(o, ts, d, errs).r; Took(ts, Cost(o, ts), r, Cost(r.e, r.rest))
    decreases |ts|, 0
  {
    hide Print, CallFollows, Parse;
    var i := Parse(0, ts[1..], d, true);
    OutsideSize();
    LevelTook(0, ts[1..], d, true);
    if Peek(i.rest) == RBracket && i.errs == 0 {
      BalancedBrackets(ts, i.rest);
      IndexSize(o, i.e);
    }
  }

  /** A list pays for its expressions and the commas between them. */
  lemma {:induction false} ListTook(acc: seq<Expr>, ts: seq<Tok>, d: nat, close: Tok, errs: nat)
    ensures var r := List(acc, ts, d, close, errs);
      r.errs == 0 ==> && |ts| + Total(acc) + 1 >= |r.rest| + Total(r.es)
                      && (r.es == [] ==> acc == [])
                      && (r.rest != [] ==> Balanced(ts, r.rest))
    decreases |ts|, 21
  {
    hide Print, CallFollows, Parse;
    if Peek(ts) != close {
      var x := Parse(0, ts, d, true);
      LevelTook(0, ts, d, true);
      TotalGrows(acc, x.e);
      if Peek(x.rest) == Comma {
        var r := List(acc + [x.e], x.rest[1..], d, close, errs + x.errs);
        ListTook(acc + [x.e], x.rest[1..], d, close, errs + x.errs);
        if r.errs == 0 && r.rest != [] {
          BalancedAfter(x.rest, r.rest);
          BalancedTwo(ts, x.rest, r.rest);
        }
      }
    }
  }

  lemma {:induction false} PrimaryTook(ts: seq<Tok>, d: nat, s: bool)
    ensures Took(ts, 0, Parse(9, ts, d, s), Size(Parse(9, ts, d, s).e, 9))
    decreases |ts|, 10, 1
  {
    hide Print, CallFollows;
    var t := Peek(ts);
    OutsideSize();
    if d + 1 > MAX_DEPTH {
    } else if Atomic(t) || t == TSelf || t.TIdent? {
      NameTook(ts, d, s);
    } else if t == LParen {
      ParensTook(ts, d + 1, s);
    } else if t == LBracket {
      ArrayTook(ts, d + 1, s);
    }
  }

  lemma NameTook(ts: seq<Tok>, d: nat, s: bool)
    requires d < MAX_DEPTH && (Atomic(Peek(ts)) || Peek(ts) == TSelf || Peek(ts).TIdent?)
    ensures Took(ts, 0, Parse(9, ts, d, s), Size(Parse(9, ts, d, s).e, 9))
  {
    hide Print, CallFollows;
    OutsideSize();
    NameSize(Peek(ts), if Peek(ts).TIdent? then Peek(ts).s else "self");
    BalancedOne(ts);
  }

  lemma {:induction false} ParensTook(ts: seq<Tok>, d: nat, s: bool)
    requires Peek(ts) == LParen
    ensures Took(ts, 0, Primary(ts, d, s), Size(Primary(ts, d, s).e, 9))
    decreases |ts|, 10, 0
  {
    hide Print, CallFollows, Parse;
    if Peek(ts[1..]) == RParen {
      BracketSizes([]);
      Enclosed(ts, ts[1..]);
    } else {
      var first := Parse(0, ts[1..], d, true);
      LevelTook(0, ts[1..], d, true);
      TighterSize(first.e, 0, 9);
      if Peek(first.rest) == Comma {
        var all := List([first.e], first.rest[1..], d, RParen, first.errs);
        ListTook([first.e], first.rest[1..], d, RParen, first.errs);
        BracketSizes(all.es);
        assert Total([first.e]) == Size(first.e, 0) + 1 + Total([first.e][1..]);
        if all.errs == 0 && Peek(all.rest) == RParen {
          BalancedAfter(first.rest, all.rest);
          BalancedTwo(ts[1..], first.rest, all.rest);
          Enclosed(ts, all.rest);
        }
      } else {
        if first.errs == 0 && Peek(first.rest) == RParen {
          Enclosed(ts, first.rest);
        }
      }
    }
  }

  lemma {:induction false} ArrayTook(ts: seq<Tok>, d: nat, s: bool)
    requires Peek(ts) == LBracket
    ensures Took(ts, 0, Primary(ts, d, s), Size(Primary(ts, d, s).e, 9))
    decreases |ts|, 10, 0
  {
    hide Print, CallFollows, Parse;
    var a := List([], ts[1..], d, RBracket, 0);
    ListTook([], ts[1..], d, RBracket, 0);
    BracketSizes(a.es);
    if a.errs == 0 && Peek(a.rest) == RBracket {
      BalancedBrackets(ts, a.rest);
    }
  }

  // ---------- The theorem ----------

  /** No text that level `k` reads as `e` without a diagnostic takes fewer tokens
      than the printed one: none of its parentheses can be left out. */
  lemma PrintIsShortest(e: Expr, k: nat, ts: seq<Tok>, rest: seq<Tok>, d: nat, s: bool)
    requires k <= 9 && Parse(k, ts, d, s) == Res(e, rest, 0)
    ensures |Print(e, k, rest)| <= |ts|
  {
    LevelTook(k, ts, d, s);
    PrintLength(e, k, rest);
  }
}
