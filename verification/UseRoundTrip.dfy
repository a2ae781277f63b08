/** Statements print as they were read, and read as they were printed. */
module UseRoundTrip {
  import opened Options
  import opened UseSyntax

  // ---------- What comes next ----------

  predicate WordNext(ps: Pieces) { Lead(ps) < |ps| && ps[Lead(ps)].Word? }

  predicate DotNext(ps: Pieces) { Lead(ps) < |ps| && ps[Lead(ps)] == Dot }

  // ---------- What was read prints back ----------

  lemma SplitAt(ps: Pieces, n: nat)
    requires n < |ps|
    ensures ps == ps[..n] + ([ps[n]] + ps[n + 1..])
  {
  }

  /** One piece, with what stands before it, in front of `f`. */
  lemma Move(a: Pieces, x: Piece, b: Pieces, f: Pieces)
    ensures a + ([x] + b) + f == a + ([x] + (b + f))
  {
  }

  lemma MoreNext(m: More, more: seq<More>)
    ensures PrintMore([m] + more) == m.gap + ([m.word] + PrintMore(more))
  {
    assert ([m] + more)[1..] == more;
  }

  lemma MoreStep(ps: Pieces)
    ensures
      var n := Lead(ps);
      ReadMore(ps) ==
        if WordNext(ps) then
          var (more, rest) := ReadMore(ps[n + 1..]);
          ([More(ps[..n], ps[n])] + more, rest)
        else ([], ps)
  {
  }

  predicate IsMore(more: seq<More>) {
    forall i :: 0 <= i < |more| ==> Trivia(more[i].gap) && more[i].word.Word?
  }

  lemma {:induction false} MorePrints(ps: Pieces)
    ensures
      var (more, rest) := ReadMore(ps);
      ps == PrintMore(more) + rest && IsMore(more)
    decreases |ps|
  {
    hide Trivia, ReadMore;
    MoreStep(ps);
    if WordNext(ps) {
      var n := Lead(ps);
      var m := More(ps[..n], ps[n]);
      SplitAt(ps, n);
      MorePrints(ps[n + 1..]);
      var (more, rest) := ReadMore(ps[n + 1..]);
      MoreNext(m, more);
      hide PrintMore;
      Move(m.gap, m.word, PrintMore(more), rest);
    } else {
      NoPieces(ps);
    }
  }

  predicate IsTail(es: seq<Entry>, trailing: bool, end: Pieces) {
    && (forall i :: 0 <= i < |es| ==> IsEntry(es[i])) && Trivia(end)
    && (es != [] && !trailing ==> end == [])
  }

  lemma MoveTwo(a: Pieces, x: Piece, b: Pieces, y: Piece, c: Pieces, f: Pieces)
    ensures a + ([x] + (b + ([y] + c))) + f == a + ([x] + (b + ([y] + (c + f))))
  {
    Move(a, x, b + ([y] + c), f);
    Move(b, y, c, f);
  }

  /** An entry and what separates it from the rest. */
  function Entered(e: Entry, sep: Piece, next: Pieces): Pieces {
    e.lead + (PrintItem(e.item) + (e.trail + ([sep] + next)))
  }

  lemma MoveEntry(e: Entry, sep: Piece, next: Pieces, f: Pieces)
    ensures Entered(e, sep, next) + f == Entered(e, sep, next + f)
  {
    assert [sep] + next + f == [sep] + (next + f);
    assert e.trail + ([sep] + next) + f == e.trail + ([sep] + next + f);
    var p := PrintItem(e.item);
    assert p + (e.trail + ([sep] + next)) + f == p + (e.trail + ([sep] + next) + f);
  }

  /** The first entry that is read. */
  lemma EntryPrints(ps: Pieces, any: bool) returns (e: Entry, sep: Piece, next: Pieces)
    requires ReadEntries(ps, any).Ok? && ps[Lead(ps)] != RBrace
    ensures IsEntry(e) && (sep == Comma || sep == RBrace) && |next| < |ps| && ps == Entered(e, sep, next)
    ensures ReadEntries(ps, any) == if sep == RBrace then Ok(([e], false, []), next)
                                    else AddEntry(e, ReadEntries(next, true))
  {
    hide Trivia, ReadMore, PrintMore;
    var n := Lead(ps);
    SplitAt(ps, n);
    var (more, after) := ReadMore(ps[n + 1..]);
    MorePrints(ps[n + 1..]);
    var k := Lead(after);
    SplitAt(after, k);
    e, sep, next := Entry(ps[..n], Item(ps[n], more), after[..k]), after[k], after[k + 1..];
    Joined(ps[n], PrintMore(more), after);
  }

  lemma Joined(x: Piece, a: Pieces, b: Pieces)
    ensures [x] + (a + b) == ([x] + a) + b
  {
  }

  lemma EndPrints(ps: Pieces, any: bool)
    requires Lead(ps) < |ps| && ps[Lead(ps)] == RBrace
    ensures ReadEntries(ps, any) == Ok(([], any, ps[..Lead(ps)]), ps[Lead(ps) + 1..])
    ensures ps == PrintEntries([], any, ps[..Lead(ps)]) + ps[Lead(ps) + 1..] && Trivia(ps[..Lead(ps)])
  {
    hide Trivia;
    var n := Lead(ps);
    assert ps[..n] + [RBrace] + ps[n + 1..] == ps;
  }

  /** Printing one entry more. */
  lemma EntriesNext(e: Entry, es: seq<Entry>, trailing: bool, end: Pieces)
    ensures
      var next := PrintEntries(es, trailing, end);
      es != [] || trailing ==> PrintEntries([e] + es, trailing, end) == Entered(e, Comma, next)
    ensures PrintEntries([e], false, []) == Entered(e, RBrace, [])
  {
    assert ([e] + es)[1..] == es;
    assert [RBrace] + [] == [RBrace];
  }

  lemma {:induction false} EntriesPrint(ps: Pieces, any: bool)
    requires ReadEntries(ps, any).Ok?
    ensures
      var r, rest := ReadEntries(ps, any).value, ReadEntries(ps, any).rest;
      ps == PrintEntries(r.0, r.1, r.2) + rest && IsTail(r.0, r.1, r.2) && (r.0 == [] ==> r.1 == any)
    decreases |ps|
  {
    hide Trivia, Entered, PrintEntries, IsEntry;
    assert Trivia([]) by {
      EmptyTrivia();
    }
    if ps[Lead(ps)] == RBrace {
      EndPrints(ps, any);
    } else {
      var e, sep, next := EntryPrints(ps, any);
      hide ReadEntries;
      if sep == RBrace {
        EntriesNext(e, [], false, []);
        MoveEntry(e, RBrace, [], next);
        assert [] + next == next;
      } else {
        EntriesPrint(next, true);
        var r, rest := ReadEntries(next, true).value, ReadEntries(next, true).rest;
        EntriesNext(e, r.0, r.1, r.2);
        MoveEntry(e, Comma, PrintEntries(r.0, r.1, r.2), rest);
      }
    }
  }

  lemma EmptyTrivia()
    ensures Trivia([])
  {
  }

  /** A dot, what comes next, and one step of reading it. */
  lemma DotPrints(ps: Pieces) returns (before: Pieces, behind: Pieces, x: Piece, next: Pieces)
    requires ReadSegs(ps).Ok? && DotNext(ps)
    ensures Trivia(before) && Inline(behind) && (x != LBrace ==> Name(x)) && |next| < |ps|
    ensures ps == before + ([Dot] + (behind + ([x] + next)))
    ensures ReadSegs(ps) == if x == LBrace then AddGroup(before, behind, ReadEntries(next, false))
                            else AddSeg(Seg(before, behind, x), ReadSegs(next))
  {
    hide Trivia, ReadEntries, AddGroup, AddSeg;
    var n := Lead(ps);
    var after := ps[n + 1..];
    var k := Lead(after);
    before, behind, x, next := ps[..n], after[..k], after[k], after[k + 1..];
    assert ps == before + ([Dot] + (behind + ([x] + next))) by {
      SplitAt(ps, n);
      SplitAt(after, k);
    }
  }

  lemma GroupPrints(before: Pieces, behind: Pieces, next: Pieces)
    requires ReadEntries(next, false).Ok? && Trivia(before) && Inline(behind)
    ensures
      var r := AddGroup(before, behind, ReadEntries(next, false));
      && r.value.1.Some? && IsGroup(r.value.1.value) && r.value.0 == []
      && before + ([Dot] + (behind + ([LBrace] + next))) == [] + (PrintGroup(r.value.1) + r.rest)
  {
    hide Trivia, ReadEntries, PrintEntries, Inline;
    EntriesPrint(next, false);
    var r, rest := ReadEntries(next, false).value, ReadEntries(next, false).rest;
    MoveTwo(before, Dot, behind, LBrace, PrintEntries(r.0, r.1, r.2), rest);
    NoPieces(PrintGroup(Some(Group(before, behind, r.0, r.1, r.2))) + rest);
  }

  lemma NoPieces(ps: Pieces)
    ensures [] + ps == ps
  {
  }

  lemma SegPrints(s: Seg, r: Read<(seq<Seg>, Option<Group>)>, next: Pieces)
    requires r.Ok? && next == PrintSegs(r.value.0) + (PrintGroup(r.value.1) + r.rest)
    ensures
      var q := AddSeg(s, r);
      s.before + ([Dot] + (s.behind + ([s.name] + next))) == PrintSegs(q.value.0) + (PrintGroup(q.value.1) + q.rest)
  {
    hide PrintGroup;
    assert ([s] + r.value.0)[1..] == r.value.0;
    MoveTwo(s.before, Dot, s.behind, s.name, PrintSegs(r.value.0), PrintGroup(r.value.1) + r.rest);
  }

  lemma {:induction false} SegsPrint(ps: Pieces)
    requires ReadSegs(ps).Ok?
    ensures
      var r, rest := ReadSegs(ps).value, ReadSegs(ps).rest;
      && ps == PrintSegs(r.0) + (PrintGroup(r.1) + rest)
      && (forall i :: 0 <= i < |r.0| ==> IsSeg(r.0[i])) && (r.1 == None || IsGroup(r.1.value))
    decreases |ps|
  {
    hide Trivia, ReadEntries, ReadSegs, Inline, PrintGroup, PrintSegs, IsGroup, Name;
    if !DotNext(ps) {
      NoSegs(ps);
      Bare(ps);
    } else {
      var before, behind, x, next := DotPrints(ps);
      if x == LBrace {
        GroupPrints(before, behind, next);
        Bare([]);
      } else {
        SegsPrint(next);
        SegPrints(Seg(before, behind, x), ReadSegs(next), next);
      }
    }
  }

  lemma Bare(ps: Pieces)
    ensures ps == PrintSegs([]) + (PrintGroup(None) + ps) && PrintSegs([]) == []
  {
  }

  lemma AliasPrints(ps: Pieces)
    requires ReadAlias(ps).Ok?
    ensures
      var a, rest := ReadAlias(ps).value, ReadAlias(ps).rest;
      ps == PrintAlias(a) + rest && (a == None || IsAlias(a.value))
  {
    hide Trivia;
    if AsNext(ps) {
      var n := Lead(ps);
      SplitAt(ps, n);
      var after := ps[n + 1..];
      var k := Lead(after);
      SplitAt(after, k);
      MoveTwo(ps[..n], Word("as"), after[..k], after[k], [], after[k + 1..]);
      assert [after[k]] + [] == [after[k]] && [] + after[k + 1..] == after[k + 1..];
    } else {
      assert [] + ps == ps;
    }
  }

  lemma MoveStmt(gap: Pieces, x: Piece, p: Pieces, q: Pieces, a: Pieces, f: Pieces)
    ensures [UseKw] + (gap + (([x] + p) + (q + a))) + f == [UseKw] + (gap + ([x] + (p + (q + (a + f)))))
  {
    assert ([x] + p) + (q + a) + f == [x] + (p + (q + (a + f)));
    assert gap + (([x] + p) + (q + a)) + f == gap + (([x] + p) + (q + a) + f);
  }

  /** A statement that was read prints as it stood. */
  lemma StmtPrints(ps: Pieces)
    requires ReadStmt(ps).Ok?
    ensures
      var s, rest := ReadStmt(ps).value, ReadStmt(ps).rest;
      [UseKw] + ps == Print(s) + rest && IsStmt(s)
  {
    hide Trivia, ReadSegs, ReadAlias, PrintSegs, PrintGroup, PrintAlias, IsSeg, IsGroup, IsAlias;
    var n := Lead(ps);
    SplitAt(ps, n);
    SegsPrint(ps[n + 1..]);
    var r, mid := ReadSegs(ps[n + 1..]).value, ReadSegs(ps[n + 1..]).rest;
    AliasPrints(mid);
    var a, rest := ReadAlias(mid).value, ReadAlias(mid).rest;
    MoveStmt(ps[..n], ps[n], PrintSegs(r.0), PrintGroup(r.1), PrintAlias(a), rest);
  }

  // ---------- What is printed reads back ----------

  /** Trivia, then something that is none. */
  lemma {:induction false} LeadIs(t: Pieces, f: Pieces)
    requires Trivia(t) && f != [] && !IsTrivia(f[0])
    ensures Lead(t + f) == |t| && (t + f)[..|t|] == t && (t + f)[|t|] == f[0] && (t + f)[|t| + 1..] == f[1..]
  {
    if t == [] {
      assert t + f == f;
    } else {
      LeadIs(t[1..], f);
      assert (t + f)[1..] == t[1..] + f;
    }
  }

  lemma {:induction false} MoreReads(more: seq<More>, f: Pieces)
    requires IsMore(more) && !WordNext(f)
    ensures ReadMore(PrintMore(more) + f) == (more, f)
    decreases |more|
  {
    hide Trivia, ReadMore;
    if more == [] {
      NoPieces(f);
      MoreStep(f);
    } else {
      var m, rest := more[0], more[1..];
      assert [m] + rest == more;
      MoreNext(m, rest);
      Move(m.gap, m.word, PrintMore(rest), f);
      hide PrintMore;
      var next := PrintMore(rest) + f;
      LeadIs(m.gap, [m.word] + next);
      assert ([m.word] + next)[1..] == next;
      MoreStep(m.gap + ([m.word] + next));
      MoreReads(rest, f);
    }
  }

  /** One step of reading entries, when a name comes next. */
  lemma EntryStep(ps: Pieces, any: bool)
    requires Lead(ps) < |ps| && Name(ps[Lead(ps)])
    ensures
      var n := Lead(ps);
      var (more, after) := ReadMore(ps[n + 1..]);
      var k := Lead(after);
      k < |after| && (after[k] == RBrace || after[k] == Comma) ==>
        var e := Entry(ps[..n], Item(ps[n], more), after[..k]);
        ReadEntries(ps, any) == if after[k] == RBrace then Ok(([e], false, []), after[k + 1..])
                                else AddEntry(e, ReadEntries(after[k + 1..], true))
  {
    hide Trivia, ReadMore;
  }

  /** The first entry of several, or one with a comma. */
  lemma EntryReads(e: Entry, sep: Piece, f: Pieces, any: bool)
    requires IsEntry(e) && (sep == Comma || sep == RBrace)
    ensures
      ReadEntries(Entered(e, sep, f), any) ==
      if sep == RBrace then Ok(([e], false, []), f)
      else AddEntry(e, ReadEntries(f, true))
  {
    hide Trivia, PrintMore, ReadMore;
    var h := e.trail + ([sep] + f);
    var g := PrintItem(e.item) + h;
    Joined(e.item.first, PrintMore(e.item.more), h);
    LeadIs(e.lead, g);
    LeadIs(e.trail, [sep] + f);
    assert ([sep] + f)[1..] == f;
    assert g[1..] == PrintMore(e.item.more) + h;
    MoreReads(e.item.more, h);
    EntryStep(Entered(e, sep, f), any);
  }

  lemma {:induction false} EntriesRead(es: seq<Entry>, trailing: bool, end: Pieces, f: Pieces, any: bool)
    requires IsTail(es, trailing, end) && (es == [] ==> trailing == any)
    ensures ReadEntries(PrintEntries(es, trailing, end) + f, any) == Ok((es, trailing, end), f)
    decreases |es|
  {
    hide Trivia, ReadEntries, Entered, IsEntry;
    if es == [] {
      EndReads(end, f, any);
    } else {
      var e, rest := es[0], es[1..];
      assert [e] + rest == es;
      EntriesNext(e, rest, trailing, end);
      if rest != [] || trailing {
        MoveEntry(e, Comma, PrintEntries(rest, trailing, end), f);
        EntryReads(e, Comma, PrintEntries(rest, trailing, end) + f, any);
        EntriesRead(rest, trailing, end, f, true);
      } else {
        assert es == [e] && end == [];
        MoveEntry(e, RBrace, [], f);
        assert [] + f == f;
        EntryReads(e, RBrace, f, any);
      }
    }
  }

  lemma EndReads(end: Pieces, f: Pieces, any: bool)
    requires Trivia(end)
    ensures ReadEntries(end + [RBrace] + f, any) == Ok(([], any, end), f)
  {
    hide Trivia;
    assert end + [RBrace] + f == end + ([RBrace] + f);
    LeadIs(end, [RBrace] + f);
    assert ([RBrace] + f)[1..] == f;
  }

  /** A dot with what stands around it, then `next`. */
  lemma DotReads(before: Pieces, behind: Pieces, next: Pieces)
    requires Trivia(before) && Inline(behind) && next != [] && (next[0] == LBrace || Name(next[0]))
    ensures
      ReadSegs(before + ([Dot] + (behind + next))) ==
      if next[0] == LBrace then AddGroup(before, behind, ReadEntries(next[1..], false))
      else AddSeg(Seg(before, behind, next[0]), ReadSegs(next[1..]))
  {
    hide Trivia, ReadEntries;
    LeadIs(before, [Dot] + (behind + next));
    assert ([Dot] + (behind + next))[1..] == behind + next;
    LeadIs(behind, next);
  }

  lemma GroupReads(g: Group, f: Pieces)
    requires IsGroup(g)
    ensures ReadSegs(PrintGroup(Some(g)) + f) == Ok(([], Some(g)), f)
  {
    hide Trivia, ReadEntries, ReadSegs, PrintEntries;
    var p := PrintEntries(g.entries, g.trailing, g.end);
    var next := [LBrace] + (p + f);
    assert PrintGroup(Some(g)) + f == g.before + ([Dot] + (g.behind + next));
    DotReads(g.before, g.behind, next);
    assert next[1..] == p + f;
    EntriesRead(g.entries, g.trailing, g.end, f, false);
  }

  lemma {:induction false} SegsRead(segs: seq<Seg>, g: Option<Group>, f: Pieces)
    requires forall i :: 0 <= i < |segs| ==> IsSeg(segs[i])
    requires if g == None then !DotNext(f) else IsGroup(g.value)
    ensures ReadSegs(PrintSegs(segs) + (PrintGroup(g) + f)) == Ok((segs, g), f)
    decreases |segs|
  {
    hide Trivia, ReadSegs;
    if segs == [] {
      assert [] + (PrintGroup(g) + f) == PrintGroup(g) + f;
      if g == None {
        NoSegs(f);
        assert [] + f == f;
      } else {
        GroupReads(g.value, f);
      }
    } else {
      var s := segs[0];
      var tail := PrintSegs(segs[1..]) + (PrintGroup(g) + f);
      var next := [s.name] + tail;
      assert PrintSegs(segs) + (PrintGroup(g) + f) == s.before + ([Dot] + (s.behind + next));
      DotReads(s.before, s.behind, next);
      assert next[1..] == tail;
      SegsRead(segs[1..], g, f);
      assert [s] + segs[1..] == segs;
    }
  }

  lemma NoSegs(f: Pieces)
    requires !DotNext(f)
    ensures ReadSegs(f) == Ok(([], None), f)
  {
  }

  lemma AliasReads(a: Option<Alias>, f: Pieces)
    requires if a == None then !AsNext(f) else IsAlias(a.value)
    ensures ReadAlias(PrintAlias(a) + f) == Ok(a, f)
    ensures a != None ==> !DotNext(PrintAlias(a) + f)
  {
    hide Trivia;
    if a == None {
      NoAlias(a, f);
    } else {
      var x := a.value;
      var next := [x.name] + f;
      Move(x.gap, Word("as"), x.behind + [x.name], f);
      assert x.behind + [x.name] + f == x.behind + next;
      LeadIs(x.gap, [Word("as")] + (x.behind + next));
      assert ([Word("as")] + (x.behind + next))[1..] == x.behind + next;
      LeadIs(x.behind, next);
      assert next[1..] == f;
    }
  }

  /** What follows does not go on with any statement. */
  predicate Clear(f: Pieces) { !DotNext(f) && !AsNext(f) }

  /** What follows does not go on with this statement. */
  predicate Closed(s: Stmt, f: Pieces) {
    s.alias == None ==> !AsNext(f) && (s.group == None ==> !DotNext(f))
  }

  /** A statement that is printed reads as it was, and nothing of what follows is
      taken into it. */
  lemma StmtReads(s: Stmt, f: Pieces)
    requires IsStmt(s) && Closed(s, f)
    ensures Print(s) + f != [] && (Print(s) + f)[0] == UseKw
    ensures ReadStmt((Print(s) + f)[1..]) == Ok(s, f)
  {
    hide Trivia, ReadSegs, ReadAlias, DotNext, AsNext, PrintAlias, PrintGroup, PrintSegs;
    var tail := PrintAlias(s.alias) + f;
    var next := [s.first] + (PrintSegs(s.segs) + (PrintGroup(s.group) + tail));
    assert (Print(s) + f)[1..] == s.gap + next;
    LeadIs(s.gap, next);
    assert next[1..] == PrintSegs(s.segs) + (PrintGroup(s.group) + tail);
    AliasReads(s.alias, f);
    if s.alias == None {
      NoAlias(s.alias, f);
    }
    SegsRead(s.segs, s.group, tail);
  }

  lemma NoAlias(a: Option<Alias>, f: Pieces)
    requires a == None
    ensures PrintAlias(a) + f == f
  {
  }
}
