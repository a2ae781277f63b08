/** A comma before the closing bracket of a list means nothing: arguments, tuples and
    arrays are read as without it. */
module LadderCommas {
  import opened Ladder
  import opened LadderRoundTrip

  /** The listed expressions, each with a comma behind it. */
  function Dangling(e: Expr, close: Tok, rest: seq<Tok>): seq<Tok> { PrintList(e, 0, [Comma] + ([close] + rest)) }

  /** Elements from `i` on are read as before, and the comma behind the last one is
      taken with them. */
  lemma {:induction false} ListTakesComma(e: Expr, i: nat, acc: seq<Expr>, rest: seq<Tok>, d: nat, close: Tok)
    requires Printable(e) && i < |Kids(e)| && d + NeedList(e, i) <= MAX_DEPTH && (close == RParen || close == RBracket)
    ensures
      List(acc, PrintList(e, i, [Comma] + ([close] + rest)), d, close, 0) ==
        ListRes(acc + Kids(e)[i..], [close] + rest, 0)
    decreases |Kids(e)| - i
  {
    hide Print, Natural, Parse, Postfix, Primary, Need, Printable;
    var x, end := Kids(e)[i], [Comma] + ([close] + rest);
    var last := i + 1 == |Kids(e)|;
    var after := if last then [close] + rest else PrintList(e, i + 1, end);
    KidFacts(e, i);
    assert last ==> end[1..] == after;
    var tail := [Comma] + after;
    FirstToken(x, 0, tail);
    ParsePrint(x, 0, tail, d, true);
    if !last {
      ListTakesComma(e, i + 1, acc + [x], rest, d, close);
    }
    assert acc + Kids(e)[i..] == acc + [x] + Kids(e)[i + 1..];
    ListStep(acc, Print(x, 0, tail), d, close, x, tail, after);
  }

  /** `f(a, b,)` is `f(a, b)`. */
  lemma CallTakesComma(e: Expr, rest: seq<Tok>, d: nat, s: bool)
    requires Printable(e) && e.ECall? && e.args != [] && d + Need(e, 8) <= MAX_DEPTH && !Continues(8, Peek(rest))
    ensures
      Parse(8, Print(e.f, CalleeLevel(e.f), [LParen] + Dangling(e, RParen, rest)), d, s) == Res(e, rest, 0)
  {
    hide Parse, Print, Natural, Postfix, List, Primary, Suffix;
    var ts := Dangling(e, RParen, rest);
    NeedCall(e);
    ParsePostfix(e.f, CalleeLevel(e.f), [LParen] + ts, d, s);
    ListTakesComma(e, 0, [], rest, d + 1, RParen);
    assert [] + Kids(e)[0..] == e.args;
    CallStep(e.f, ts, d + 1, e.args, rest);
    PrintCall(e, rest);
    ParsePrint(e, 8, rest, d, s);
    ParseCall(e, rest, d, s);
  }

  lemma NeedCall(e: Expr)
    requires e.ECall?
    ensures Need(e, 8) >= Need(e.f, CalleeLevel(e.f)) && Need(e, 8) >= 1 + NeedList(e, 0)
  {
  }

  lemma PrintCall(e: Expr, rest: seq<Tok>)
    requires e.ECall?
    ensures Print(e, 8, rest) == Natural(e, rest)
  {
  }

  lemma NeedList9(e: Expr)
    requires e.EArray? || e.ETuple?
    ensures Need(e, 9) >= 1 + NeedList(e, 0)
  {
  }

  /** `[a, b,]` is `[a, b]`. */
  lemma ArrayTakesComma(e: Expr, rest: seq<Tok>, d: nat, s: bool)
    requires Printable(e) && e.EArray? && e.elems != [] && d + Need(e, 9) <= MAX_DEPTH
    ensures Parse(9, [LBracket] + Dangling(e, RBracket, rest), d, s) == Res(e, rest, 0)
  {
    NeedList9(e);
    hide Parse, Print, List, Primary, Need, Printable;
    ListTakesComma(e, 0, [], rest, d + 1, RBracket);
    assert [] + Kids(e)[0..] == e.elems;
    ArrayStep(Dangling(e, RBracket, rest), d, s, e.elems, rest);
  }

  /** `(a, b,)` is `(a, b)`. */
  lemma TupleTakesComma(e: Expr, rest: seq<Tok>, d: nat, s: bool)
    requires Printable(e) && e.ETuple? && e.elems != [] && d + Need(e, 9) <= MAX_DEPTH
    ensures Parse(9, [LParen] + Dangling(e, RParen, rest), d, s) == Res(e, rest, 0)
  {
    NeedList9(e);
    assert NeedList(e, 0) >= Need(e.elems[0], 0);
    hide Parse, Print, Primary, Need, Printable, Natural;
    var end := [Comma] + ([RParen] + rest);
    var x, after := Kids(e)[0], PrintList(e, 1, end);
    KidFacts(e, 0);
    FirstToken(x, 0, [Comma] + after);
    ParsePrint(x, 0, [Comma] + after, d + 1, true);
    ListTakesComma(e, 1, [x], rest, d + 1, RParen);
    assert [x] + Kids(e)[1..] == e.elems;
    TupleStep(Print(x, 0, [Comma] + after), d, s, x, after, e.elems, rest);
  }

  /** `(a,)` is `a`. */
  lemma OneWithCommaIsItself(x: Expr, rest: seq<Tok>, d: nat, s: bool)
    requires Printable(x) && d + 1 + Need(x, 0) <= MAX_DEPTH
    ensures Parse(9, [LParen] + Print(x, 0, [Comma] + ([RParen] + rest)), d, s) == Res(x, rest, 0)
  {
    var after := [RParen] + rest;
    var tail := [Comma] + after;
    FirstToken(x, 0, tail);
    ParsePrint(x, 0, tail, d + 1, true);
    ParenStep(Print(x, 0, tail), d, s, x, tail);
    assert tail[1..] == after && after[1..] == rest;
  }

  // ---------- Missing brackets ----------

  /** A bracket that is missing is reported once, and what was read is kept. */
  lemma MissingBracket(x: Expr, rest: seq<Tok>, d: nat, s: bool)
    requires Printable(x) && d + 1 + Need(x, 0) <= MAX_DEPTH && !Continues(0, Peek(rest))
    requires Peek(rest) != Comma && Peek(rest) != RParen && Peek(rest) != RBracket
    ensures Parse(9, [LParen] + Print(x, 0, rest), d, s) == Res(x, rest, 1)
    ensures Parse(9, [LBracket] + Print(x, 0, rest), d, s) == Res(EArray([x]), rest, 1)
  {
    var ts := Print(x, 0, rest);
    FirstToken(x, 0, rest);
    hide Parse, Print, List, Primary, Need, Printable, Natural, Starts, Continues;
    ParsePrint(x, 0, rest, d + 1, true);
    ParenStep(ts, d, s, x, rest);
    OnlyOne(x, rest, d + 1, RBracket);
    UnclosedArray(ts, d, s, [x], rest);
  }

  /** One expression with no comma behind it. */
  lemma OnlyOne(x: Expr, rest: seq<Tok>, d: nat, close: Tok)
    requires Printable(x) && d + Need(x, 0) <= MAX_DEPTH && !Continues(0, Peek(rest)) && Peek(rest) != Comma
    requires close == RParen || close == RBracket
    ensures List([], Print(x, 0, rest), d, close, 0) == ListRes([x], rest, 0)
  {
    hide Parse, Print, List, Primary, Need, Printable, Natural, Starts, Continues;
    FirstToken(x, 0, rest);
    ParsePrint(x, 0, rest, d, true);
    ListStep([], Print(x, 0, rest), d, close, x, rest, []);
    assert [] + [x] == [x];
  }

  lemma UnclosedArray(ts: seq<Tok>, d: nat, s: bool, es: seq<Expr>, rest: seq<Tok>)
    requires d < MAX_DEPTH && List([], ts, d + 1, RBracket, 0) == ListRes(es, rest, 0) && Peek(rest) != RBracket
    ensures Parse(9, [LBracket] + ts, d, s) == Res(EArray(es), rest, 1)
  {
    assert ([LBracket] + ts)[1..] == ts;
  }

  /** So is a call's. */
  lemma MissingCallBracket(f: Expr, x: Expr, rest: seq<Tok>, d: nat, s: bool)
    requires Printable(f) && Printable(x) && d + Need(f, CalleeLevel(f)) <= MAX_DEPTH && d + 1 + Need(x, 0) <= MAX_DEPTH
    requires !Continues(0, Peek(rest)) && Peek(rest) != Comma && Peek(rest) != RParen
    ensures
      Parse(8, Print(f, CalleeLevel(f), [LParen] + Print(x, 0, rest)), d, s) == Postfix(ECall(f, [x]), rest, d + 1, 1)
  {
    var ts := Print(x, 0, rest);
    hide Parse, Print, Natural, List, Primary, Need, Printable, Postfix, Continues;
    OnlyOne(x, rest, d + 1, RParen);
    ParsePostfix(f, CalleeLevel(f), [LParen] + ts, d, s);
    UnclosedCall(f, ts, d + 1, [x], rest);
  }

  lemma UnclosedCall(f: Expr, ts: seq<Tok>, d: nat, args: seq<Expr>, rest: seq<Tok>)
    requires d <= MAX_DEPTH && List([], ts, d, RParen, 0) == ListRes(args, rest, 0) && Peek(rest) != RParen
    ensures Postfix(f, [LParen] + ts, d, 0) == Postfix(ECall(f, args), rest, d, 1)
  {
    var all := [LParen] + ts;
    assert all[1..] == ts;
    assert CallSuffix(f, all, d, 0) == Res(ECall(f, args), rest, 1);
    assert Suffix(f, all, d, 0) == Suffixed(Res(ECall(f, args), rest, 1), true);
  }
}
