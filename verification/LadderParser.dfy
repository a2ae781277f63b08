/** The expression parser as it runs: a cursor, a depth counter and a count of
    diagnostics, moved by every method. */
module LadderParser {
  import opened Ladder

  class Parser {
    /** The tokens from the cursor on. */
    var rest: seq<Tok>
    var depth: nat
    var ndiags: nat

    constructor (toks: seq<Tok>)
      ensures rest == toks && depth == 0 && ndiags == 0
    {
      rest, depth, ndiags := toks, 0, 0;
    }

    /** The cursor and the diagnostics are where `r` says, starting from `n` of them. */
    ghost predicate At(r: Res, e: Expr, n: nat)
      reads this
    {
      e == r.e && rest == r.rest && ndiags == n + r.errs
    }

    method Bump()
      modifies this`rest
      ensures rest == if old(rest) == [] then [] else old(rest)[1..]
    {
      if rest != [] { rest := rest[1..]; }
    }

    method Error()
      modifies this`ndiags
      ensures ndiags == old(ndiags) + 1
    {
      ndiags := ndiags + 1;
    }

    /** Takes the token or reports it. */
    method Eat(t: Tok)
      modifies this`rest, this`ndiags
      ensures var there := Peek(old(rest)) == t && old(rest) != [];
        && rest == (if there then old(rest)[1..] else old(rest))
        && ndiags == (if there then old(ndiags) else old(ndiags) + 1)
    {
      if Peek(rest) == t && rest != [] { Bump(); } else { Error(); }
    }

    /** A construct this model does not have. */
    method Swallow() returns (e: Expr)
      modifies this`rest
      ensures e == EOutside && rest == []
    {
      rest, e := [], EOutside;
    }

    method ParseLevel(k: nat, s: bool) returns (e: Expr)
      requires k <= 9
      modifies this
      ensures At(Parse(k, old(rest), old(depth), s), e, old(ndiags)) && depth == old(depth)
      decreases |rest|, 20 - k, 1
    {
      if k == 0 || k == 1 || k == 2 || k == 5 {
        e := ParseLevel(k + 1, s);
        e := ParseLoop(k, s, e, old(ndiags));
      } else if k == 3 {
        e := ParseLevel(4, s);
        e := ParseCompare(s, e, old(ndiags));
      } else if k == 4 {
        e := ParseRange(s);
      } else if k == 6 {
        e := ParseMultiplicative(s);
      } else if k == 7 {
        e := ParseUnary(s);
      } else if k == 8 {
        e := ParsePrimary(s);
        depth := depth + 1;
        e := ParsePostfix(e, old(ndiags));
        depth := depth - 1;
      } else {
        e := ParsePrimary(s);
      }
    }

    /** The loop of `parse_oror`, `parse_or`, `parse_and`, `parse_additive` and
        `parse_multiplicative`. */
    method ParseLoop(k: nat, s: bool, first: Expr, ghost base: nat) returns (e: Expr)
      requires k < 9 && base <= ndiags
      modifies this
      ensures At(Loop(k, first, old(rest), old(depth), s, old(ndiags) - base), e, base)
      ensures depth == old(depth)
      decreases |rest|, 0, 0
    {
      hide Parse, Postfix, Primary, List, Suffix, CallSuffix, IndexSuffix, Compare;
      e := first;
      ghost var all := Loop(k, first, rest, depth, s, ndiags - base);
      while true
        invariant depth == old(depth) && base <= ndiags
        invariant all == Loop(k, e, rest, depth, s, ndiags - base)
        decreases |rest|
      {
        var t := Peek(rest);
        if !OpAt(k, t) { return; }
        Bump();
        ghost var r := Parse(k + 1, rest, depth, s);
        var rhs := ParseLevel(k + 1, s);
        assert rhs == r.e && rest == r.rest;
        e := EBin(t.op, e, rhs);
      }
    }

    method ParseCompare(s: bool, first: Expr, ghost base: nat) returns (e: Expr)
      requires base <= ndiags
      modifies this
      ensures At(Compare(first, old(rest), old(depth), s, old(ndiags) - base, false), e, base)
      ensures depth == old(depth)
      decreases |rest|, 0, 0
    {
      hide Parse, Postfix, Primary, List, Suffix, CallSuffix, IndexSuffix, Loop;
      e := first;
      var reported := false;
      ghost var all := Compare(first, rest, depth, s, ndiags - base, false);
      while true
        invariant depth == old(depth) && base <= ndiags
        invariant all == Compare(e, rest, depth, s, ndiags - base, reported)
        decreases |rest|
      {
        var t := Peek(rest);
        if !IsCompare(t) { return; }
        Bump();
        var rhs := ParseLevel(4, s);
        e := EBin(t.op, e, rhs);
        var next := Peek(rest);
        if !IsCompare(next) { return; }
        if !reported {
          Error();
          reported := true;
        }
      }
    }

    method ParseRange(s: bool) returns (e: Expr)
      modifies this
      ensures At(Parse(4, old(rest), old(depth), s), e, old(ndiags)) && depth == old(depth)
      decreases |rest|, 16, 0
    {
      e := ParseLevel(5, s);
      var t := Peek(rest);
      if t == DotDot || t == DotDotEq {
        Bump();
        var hi := ParseLevel(5, s);
        e := ERange(t == DotDotEq, e, hi);
      }
    }

    method ParseMultiplicative(s: bool) returns (e: Expr)
      modifies this
      ensures At(Parse(6, old(rest), old(depth), s), e, old(ndiags)) && depth == old(depth)
      decreases |rest|, 14, 0
    {
      e := ParseLevel(7, s);
      var t := Peek(rest);
      if t == Pow {
        Bump();
        var r := ParseLevel(7, s);
        e := ERepeat(e, r);
      }
      e := ParseLoop(6, s, e, old(ndiags));
    }

    method ParseUnary(s: bool) returns (e: Expr)
      modifies this
      ensures At(Parse(7, old(rest), old(depth), s), e, old(ndiags)) && depth == old(depth)
      decreases |rest|, 13, 0
    {
      var t := Peek(rest);
      if t == TOp(Sub) || t == Bang {
        Bump();
        e := ParseUnary(s);
        e := EUn(t == TOp(Sub), e);
      } else {
        e := ParseLevel(8, s);
      }
    }

    method ParsePostfix(first: Expr, ghost base: nat) returns (e: Expr)
      requires base <= ndiags
      modifies this
      ensures At(Postfix(first, old(rest), old(depth), old(ndiags) - base), e, base)
      ensures depth == old(depth)
      decreases |rest|, 0, 3
    {
      e := first;
      ghost var all := Postfix(first, rest, depth, ndiags - base);
      var more := true;
      while more
        invariant depth == old(depth) && base <= ndiags
        invariant if more then all == Postfix(e, rest, depth, ndiags - base) else At(all, e, base)
        decreases |rest|, more
      {
        e, more := ParseSuffix(e, base);
      }
    }

    /** One suffix, if there is one. */
    method ParseSuffix(o: Expr, ghost base: nat) returns (e: Expr, more: bool)
      requires base <= ndiags
      modifies this
      ensures base <= ndiags && depth == old(depth) && |rest| <= |old(rest)|
      ensures var s := Suffix(o, old(rest), depth, old(ndiags) - base);
        more == s.more && At(s.r, e, base)
      decreases |rest|, 0, 2
    {
      e, more := o, false;
      if depth > MAX_DEPTH {
        Error();
        return;
      }
      var t := Peek(rest);
      if t == LParen {
        e := ParseCallSuffix(o, base);
        more := true;
      } else if t == LBracket {
        e, more := ParseIndexSuffix(o, base);
      } else if t == Dot {
        e, more := ParseMemberSuffix(o, base);
      } else if t == Question {
        Bump();
        e, more := ETry(o), true;
      }
    }

    method ParseCallSuffix(f: Expr, ghost base: nat) returns (e: Expr)
      requires base <= ndiags && Peek(rest) == LParen && depth <= MAX_DEPTH
      modifies this
      ensures base <= ndiags && |rest| < |old(rest)| && depth == old(depth)
      ensures At(CallSuffix(f, old(rest), depth, old(ndiags) - base), e, base)
      decreases |rest|, 0, 0
    {
      Bump();
      var args := ParseList([], RParen, base);
      e := ECall(f, args);
      Eat(RParen);
    }

    method ParseIndexSuffix(o: Expr, ghost base: nat) returns (e: Expr, more: bool)
      requires base <= ndiags && Peek(rest) == LBracket && depth <= MAX_DEPTH
      modifies this
      ensures base <= ndiags && depth == old(depth)
      ensures var s := IndexSuffix(o, old(rest), depth, old(ndiags) - base);
        more == s.more && At(s.r, e, base)
      decreases |rest|, 0, 0
    {
      var types := TypeArgsAhead();
      if types {
        e := Swallow();
        return e, false;
      }
      var save := ndiags;
      Bump();
      var idx := ParseLevel(0, true);
      var next := Peek(rest);
      if next == Comma {
        ndiags := save;
        e := Swallow();
        return e, false;
      }
      more, e := true, EIndex(o, idx);
      Eat(RBracket);
    }

    method ParseMemberSuffix(o: Expr, ghost base: nat) returns (e: Expr, more: bool)
      requires base <= ndiags && Peek(rest) == Dot && depth <= MAX_DEPTH
      modifies this
      ensures base <= ndiags && depth == old(depth)
      ensures var s := Suffix(o, old(rest), depth, old(ndiags) - base);
        more == s.more && At(s.r, e, base)
    {
      more := true;
      Bump();
      var m := Peek(rest);
      if m.TInt? {
        e := Swallow();
        return e, false;
      }
      if m.TIdent? {
        Bump();
        e := EMember(o, m.s);
      } else {
        Error();
        e := EMember(o, "");
      }
    }

    /** Finds the `]` of the `[` at the cursor, and looks behind it. */
    method TypeArgsAhead() returns (found: bool)
      ensures found == CallFollows(rest, 0)
    {
      var ts, level := rest, 0;
      while ts != []
        invariant CallFollows(rest, 0) == CallFollows(ts, level)
        decreases |ts|
      {
        if ts[0] == Eof { return false; }
        if ts[0] == LBracket {
          level := level + 1;
        } else if ts[0] == RBracket {
          if level <= 1 { return level == 1 && Peek(ts[1..]) == LParen; }
          level := level - 1;
        }
        ts := ts[1..];
      }
      return false;
    }

    method ParseList(first: seq<Expr>, close: Tok, ghost base: nat) returns (es: seq<Expr>)
      requires base <= ndiags
      modifies this
      ensures var r := List(first, old(rest), old(depth), close, old(ndiags) - base);
        es == r.es && rest == r.rest && ndiags == base + r.errs
      ensures depth == old(depth)
      decreases |rest|, 21, 0
    {
      es := first;
      ghost var all := List(first, rest, depth, close, ndiags - base);
      while true
        invariant depth == old(depth) && base <= ndiags && |rest| <= |old(rest)|
        invariant all == List(es, rest, depth, close, ndiags - base)
        decreases |rest|
      {
        if Peek(rest) == close { return; }
        var x := ParseLevel(0, true);
        es := es + [x];
        if Peek(rest) != Comma { return; }
        Bump();
      }
    }

    method ParsePrimary(s: bool) returns (e: Expr)
      modifies this
      ensures At(Parse(9, old(rest), old(depth), s), e, old(ndiags)) && depth == old(depth)
      decreases |rest|, 11, 0
    {
      depth := depth + 1;
      if depth > MAX_DEPTH {
        Error();
        e := EAtom(TVoid);
      } else {
        e := ParsePrimaryInner(s);
      }
      depth := depth - 1;
    }

    method ParsePrimaryInner(s: bool) returns (e: Expr)
      modifies this
      ensures At(Primary(old(rest), old(depth), s), e, old(ndiags)) && depth == old(depth)
      decreases |rest|, 1, 0
    {
      hide Parse, List, Postfix, Suffix, Loop, Compare, CallFollows;
      var t := Peek(rest);
      var next := if rest == [] then Eof else Peek(rest[1..]);
      if Atomic(t) || t == TSelf {
        Bump();
        e := if t == TSelf then EIdent("self") else EAtom(t);
      } else if t.TIdent? {
        if s && next == LBrace {
          e := Swallow();
        } else {
          Bump();
          e := EIdent(t.s);
        }
      } else if t == LParen {
        e := ParseParens();
      } else if t == LBracket {
        Bump();
        var es := ParseList([], RBracket, old(ndiags));
        e := EArray(es);
        Eat(RBracket);
      } else if t == LBrace || t == TStart || t == TOp(OrOr) {
        e := Swallow();
      } else {
        Error();
        Bump();
        e := EAtom(TVoid);
      }
    }

    method ParseParens() returns (e: Expr)
      requires Peek(rest) == LParen
      modifies this
      ensures At(Primary(old(rest), old(depth), true), e, old(ndiags)) && depth == old(depth)
      ensures Primary(old(rest), old(depth), true) == Primary(old(rest), old(depth), false)
      decreases |rest|, 0, 0
    {
      hide Parse, List, Postfix, Suffix;
      var next := if rest == [] then Eof else Peek(rest[1..]);
      Bump();
      if next == RParen {
        Bump();
        return ETuple([]);
      }
      e := ParseLevel(0, true);
      var t := Peek(rest);
      var all := [e];
      if t == Comma {
        Bump();
        all := ParseList([e], RParen, old(ndiags));
      }
      if |all| != 1 { e := ETuple(all); }
      Eat(RParen);
    }
  }
}
