/** The pass over import statements is done after one time, and loses none of them. */
module UseTheorem {
  import opened Options
  import opened Sorting
  import opened UseSyntax
  import opened UseRoundTrip
  import opened UseNormal

  // ---------- Comments ----------

  lemma NoteEither(a: Pieces, b: Pieces)
    ensures HasNote(a + b) <==> HasNote(a) || HasNote(b)
  {
    if HasNote(a) {
      var p :| p in a && p.Note?;
      assert p in a + b;
    } else if HasNote(b) {
      var p :| p in b && p.Note?;
      assert p in a + b;
    }
  }

  lemma NoteOne(p: Piece)
    ensures HasNote([p]) <==> p.Note?
  {
    assert p in [p];
  }

  lemma EnteredNotes(e: Entry, sep: Piece, next: Pieces)
    requires !sep.Note?
    ensures HasNote(Entered(e, sep, next)) <==>
      HasNote(e.lead) || HasNote(PrintItem(e.item)) || HasNote(e.trail) || HasNote(next)
  {
    hide HasNote;
    NoteEither(e.lead, PrintItem(e.item) + (e.trail + ([sep] + next)));
    NoteEither(PrintItem(e.item), e.trail + ([sep] + next));
    NoteEither(e.trail, [sep] + next);
    NoteEither([sep], next);
    NoteOne(sep);
  }

  predicate NoNote(e: Entry) { !HasNote(e.lead) && !HasNote(PrintItem(e.item)) && !HasNote(e.trail) }

  /** No comment between the braces, and none in any entry. */
  lemma {:induction false} EntriesNotes(es: seq<Entry>, trailing: bool, end: Pieces)
    requires es != [] && !trailing ==> end == []
    ensures !HasNote(PrintEntries(es, trailing, end)) <==>
      (forall i :: 0 <= i < |es| ==> NoNote(es[i])) && !HasNote(end)
    decreases |es|
  {
    hide HasNote, Entered;
    NoteOne(RBrace);
    if es == [] {
      NoteEither(end, [RBrace]);
    } else {
      var e, rest := es[0], es[1..];
      assert [e] + rest == es;
      EntriesNext(e, rest, trailing, end);
      if rest != [] || trailing {
        EntriesNotes(rest, trailing, end);
        EnteredNotes(e, Comma, PrintEntries(rest, trailing, end));
        assert forall i :: 1 <= i < |es| ==> es[i] == rest[i - 1];
        assert (forall i :: 0 <= i < |rest| ==> NoNote(rest[i])) ==> forall i :: 1 <= i < |es| ==> NoNote(es[i]);
        assert forall i :: 0 <= i < |rest| ==> rest[i] == es[i + 1];
      } else {
        assert es == [e];
        EnteredNotes(e, RBrace, []);
        NoneAtAll();
      }
    }
  }

  lemma NoneAtAll()
    ensures !HasNote([])
  {
  }

  lemma StmtNotes(s: Stmt)
    ensures Frozen(s) <==>
      HasNote(s.gap) || HasNote(PrintPath(s)) || HasNote(PrintGroup(s.group)) || HasNote(PrintAlias(s.alias))
  {
    hide HasNote, PrintPath, PrintGroup, PrintAlias;
    NoteOne(UseKw);
    NoteEither([UseKw], s.gap + (PrintPath(s) + (PrintGroup(s.group) + PrintAlias(s.alias))));
    NoteEither(s.gap, PrintPath(s) + (PrintGroup(s.group) + PrintAlias(s.alias)));
    NoteEither(PrintPath(s), PrintGroup(s.group) + PrintAlias(s.alias));
    NoteEither(PrintGroup(s.group), PrintAlias(s.alias));
  }

  lemma GroupNotes(g: Group)
    ensures HasNote(PrintGroup(Some(g))) <==>
      HasNote(g.before) || HasNote(g.behind) || HasNote(PrintEntries(g.entries, g.trailing, g.end))
  {
    hide HasNote, PrintEntries;
    var p := PrintEntries(g.entries, g.trailing, g.end);
    NoteOne(Dot);
    NoteOne(LBrace);
    NoteEither(g.before, [Dot] + (g.behind + ([LBrace] + p)));
    NoteEither([Dot], g.behind + ([LBrace] + p));
    NoteEither(g.behind, [LBrace] + p);
    NoteEither([LBrace], p);
  }

  /** What is built anew from items without comments has no comment. */
  lemma BuiltNotes(s: Stmt, g: Group)
    requires s.group == Some(g) && s.alias == None && !HasNote(s.gap) && !HasNote(PrintPath(s))
    requires !HasNote(g.before) && !HasNote(g.behind) && !HasNote(g.end)
    requires g.entries != [] && !g.trailing ==> g.end == []
    requires forall i :: 0 <= i < |g.entries| ==> NoNote(g.entries[i])
    ensures !Frozen(s)
  {
    hide HasNote, PrintPath, PrintGroup, PrintEntries, NoNote;
    EntriesNotes(g.entries, g.trailing, g.end);
    GroupNotes(g);
    StmtNotes(s);
    NoneAtAll();
    assert PrintAlias(None) == [];
  }

  // ---------- Tidying ----------

  /** The two ways to lay out a group again. */
  predicate IsLayout(lead: Pieces, last: Pieces, trailing: bool, end: Pieces) {
    || (lead == SPACE && last == SPACE && !trailing && end == [])
    || (lead == LINE && last == [Break] && !trailing && end == [])
    || (lead == LINE && last == [] && trailing && end == [Break])
  }

  function Rebuilt(s: Stmt, es: seq<Entry>, lead: Pieces, last: Pieces, trailing: bool, end: Pieces): Stmt {
    Stmt(SPACE, s.first, s.segs, Some(Group([], [], Laid(es, lead, last), trailing, end)), None)
  }

  lemma LayoutShapes(lead: Pieces, last: Pieces, trailing: bool, end: Pieces)
    requires IsLayout(lead, last, trailing, end)
    ensures Trivia(lead) && Trivia(last) && Trivia(end) && Inline(SPACE) && Inline([])
    ensures !HasNote(lead) && !HasNote(last) && !HasNote(end) && !HasNote(SPACE) && !HasNote([])
    ensures !trailing ==> end == []
  {
  }

  /** Laying out again keeps the keys, so what is sorted stays sorted. */
  lemma LaidSorted(es: seq<Entry>, lead: Pieces, last: Pieces)
    requires Sorted(es, ByKey())
    ensures Sorted(Laid(es, lead, last), ByKey())
  {
    hide Before;
    var r := Laid(es, lead, last);
    forall i | 0 <= i < |r| - 1
      ensures !ByKey()(r[i + 1], r[i])
    {
      assert !ByKey()(es[i + 1], es[i]);
    }
  }

  lemma LaidTwice(es: seq<Entry>, a: Pieces, b: Pieces, lead: Pieces, last: Pieces)
    ensures Laid(Laid(es, a, b), lead, last) == Laid(es, lead, last)
  {
  }

  lemma KeysStrict()
    ensures Strict(ByKey()) && Strict(ByPath())
  {
    hide Before, PathText;
    forall a: Entry, b: Entry, c: Entry
      ensures ByKey()(a, b) ==> !ByKey()(b, a)
      ensures !ByKey()(a, b) && !ByKey()(b, c) ==> !ByKey()(a, c)
    {
      BeforeStrict(Key(a), Key(b), Key(c));
    }
    forall a: Stmt, b: Stmt, c: Stmt
      ensures ByPath()(a, b) ==> !ByPath()(b, a)
      ensures !ByPath()(a, b) && !ByPath()(b, c) ==> !ByPath()(a, c)
    {
      BeforeStrict(PathText(a), PathText(b), PathText(c));
    }
  }

  /** Entries of a statement without comments have none. */
  lemma ThawedEntries(s: Stmt, g: Group)
    requires s.group == Some(g) && IsGroup(g) && !Frozen(s)
    ensures !HasNote(PrintPath(s)) && forall i :: 0 <= i < |g.entries| ==> NoNote(g.entries[i])
  {
    hide HasNote, PrintPath, PrintGroup, PrintEntries, NoNote;
    StmtNotes(s);
    GroupNotes(g);
    EntriesNotes(g.entries, g.trailing, g.end);
  }

  /** A rebuilt statement can be read, and has no comment. */
  lemma RebuiltIs(s: Stmt, g: Group, lead: Pieces, last: Pieces, trailing: bool, end: Pieces)
    requires IsStmt(s) && s.group == Some(g) && g.entries != [] && !Frozen(s)
    requires IsLayout(lead, last, trailing, end)
    ensures var r := Rebuilt(s, Sort(g.entries, ByKey()), lead, last, trailing, end); IsStmt(r) && !Frozen(r)
  {
    hide HasNote, Frozen, PrintPath, Trivia, IsItem, PrintItem;
    var es := Sort(g.entries, ByKey());
    var r := Rebuilt(s, es, lead, last, trailing, end);
    LayoutShapes(lead, last, trailing, end);
    SortPart(g.entries, ByKey());
    SortKeeps(g.entries, ByKey());
    ThawedEntries(s, g);
    var laid := r.group.value.entries;
    forall i | 0 <= i < |laid|
      ensures IsEntry(laid[i]) && NoNote(laid[i])
    {
      assert es[i] in g.entries;
    }
    assert PrintPath(r) == PrintPath(s) by {
      SamePath(s, r);
    }
    BuiltNotes(r, r.group.value);
  }

  lemma SamePath(s: Stmt, r: Stmt)
    requires s.first == r.first && s.segs == r.segs
    ensures PrintPath(s) == PrintPath(r)
  {
  }

  /** A line break in front of the first entry. */
  lemma TallBreaks(es: seq<Entry>, last: Pieces, trailing: bool, end: Pieces)
    requires es != []
    ensures Break in PrintEntries(Laid(es, LINE, last), trailing, end)
  {
    hide PrintItem, PrintEntries;
    var laid := Laid(es, LINE, last);
    var e, rest := laid[0], laid[1..];
    assert [e] + rest == laid;
    EntriesNext(e, rest, trailing, end);
    assert Break in LINE;
    if rest != [] || trailing {
      assert Break in Entered(e, Comma, PrintEntries(rest, trailing, end));
    } else {
      assert laid == [e];
      NoEnd(e, end);
      assert Break in Entered(e, RBrace, []);
    }
  }

  lemma NoEnd(e: Entry, end: Pieces)
    ensures PrintEntries([e], false, end) == PrintEntries([e], false, [])
  {
  }

  /** What a rebuilt statement becomes when it is tidied again. */
  lemma RebuiltStays(s: Stmt, g: Group, lead: Pieces, last: Pieces, trailing: bool, end: Pieces)
    requires IsStmt(s) && s.group == Some(g) && g.entries != [] && !Frozen(s)
    requires IsLayout(lead, last, trailing, end)
    requires lead == SPACE ==> |Text(Print(Flat(s, Sort(g.entries, ByKey()))))| <= COLS
    ensures var r := Rebuilt(s, Sort(g.entries, ByKey()), lead, last, trailing, end); Tidy(r) == r
  {
    hide Frozen, Text, Print, PrintEntries, Strict;
    var es := Sort(g.entries, ByKey());
    var r := Rebuilt(s, es, lead, last, trailing, end);
    var laid := r.group.value.entries;
    RebuiltIs(s, g, lead, last, trailing, end);
    KeysStrict();
    SortKeeps(g.entries, ByKey());
    SortSorted(g.entries, ByKey());
    LaidSorted(es, lead, last);
    SortStays(laid, ByKey());
    LaidTwice(es, lead, last, SPACE, SPACE);
    if lead == LINE {
      TallBreaks(es, last, trailing, end);
    }
  }

  /** Tidying twice is tidying once. */
  lemma TidyTwice(s: Stmt)
    requires IsStmt(s)
    ensures IsStmt(Tidy(s)) && Tidy(Tidy(s)) == Tidy(s)
    ensures Frozen(Tidy(s)) <==> Frozen(s)
    ensures PathText(Tidy(s)) == PathText(s)
  {
    hide Frozen, Text, Print, PrintEntries, IsGroup;
    if s.group != None && s.group.value.entries != [] && !Frozen(s) {
      var g := s.group.value;
      var es := Sort(g.entries, ByKey());
      SamePath(s, Tidy(s));
      if Tidy(s) != s {
        if SingleLine(g) && !TooLong(s, g) {
          RebuiltStays(s, g, SPACE, SPACE, false, []);
          RebuiltIs(s, g, SPACE, SPACE, false, []);
        } else if TooLong(s, g) || g.trailing {
          RebuiltStays(s, g, LINE, [], true, [Break]);
          RebuiltIs(s, g, LINE, [], true, [Break]);
        } else {
          RebuiltStays(s, g, LINE, [Break], false, []);
          RebuiltIs(s, g, LINE, [Break], false, []);
        }
      }
    }
  }

  // ---------- Reading a file back ----------

  /** Where no statement is continued by what follows it. */
  predicate Apart(units: seq<Unit>, tail: Pieces) {
    Clear(tail) && forall i :: 1 <= i < |units| ==> Clear(units[i].pre)
  }

  predicate IsDoc(units: seq<Unit>, tail: Pieces) {
    UseKw !in tail && forall i :: 0 <= i < |units| ==> UseKw !in units[i].pre && IsStmt(units[i].stmt)
  }

  /** What was read prints as it stood. */
  lemma {:induction false} DocPrints(ps: Pieces)
    requires ReadDoc(ps) != None
    ensures var d := ReadDoc(ps).value; ps == PrintDoc(d.units, d.tail) && IsDoc(d.units, d.tail)
    decreases |ps|
  {
    hide ReadStmt, Print, IsStmt;
    var n := Plain(ps);
    if n == |ps| {
      assert ps[..n] == ps;
    } else {
      SplitAt(ps, n);
      var r := ReadStmt(ps[n + 1..]);
      StmtPrints(ps[n + 1..]);
      DocPrints(r.rest);
      var d := ReadDoc(r.rest).value;
      var u := Unit(ps[..n], r.value);
      assert ([u] + d.units)[1..] == d.units;
    }
  }

  /** Text before a `use`. */
  lemma {:induction false} PlainIs(a: Pieces, f: Pieces)
    requires UseKw !in a && (f == [] || f[0] == UseKw)
    ensures Plain(a + f) == |a| && (a + f)[..|a|] == a && (a + f)[|a|..] == f
  {
    if a == [] {
      assert a + f == f;
    } else {
      PlainIs(a[1..], f);
      assert (a + f)[1..] == a[1..] + f;
      assert a[0] != UseKw;
    }
  }

  /** What follows a gap that does not continue a statement does not either. */
  lemma ClearMore(a: Pieces, f: Pieces)
    requires Clear(a) && (f == [] || f[0] == UseKw)
    ensures Clear(a + f)
  {
    LeadMore(a, f);
  }

  lemma {:induction false} LeadMore(a: Pieces, f: Pieces)
    requires f == [] || f[0] == UseKw
    ensures Lead(a + f) == Lead(a) && (a + f)[..Lead(a)] == a[..Lead(a)]
  {
    hide Trivia;
    if a == [] {
      assert a + f == f;
    } else if IsTrivia(a[0]) {
      LeadMore(a[1..], f);
      assert (a + f)[1..] == a[1..] + f;
      LeadNext(a);
      LeadNext(a + f);
    }
  }

  lemma LeadNext(a: Pieces)
    requires a != []
    ensures Lead(a) == if IsTrivia(a[0]) then 1 + Lead(a[1..]) else 0
  {
  }

  /** No statement is gone on with by what follows it. */
  predicate Shut(units: seq<Unit>, tail: Pieces) {
    units != [] ==> Closed(units[0].stmt, PrintDoc(units[1..], tail)) && Shut(units[1..], tail)
  }

  lemma {:induction false} ApartShuts(units: seq<Unit>, tail: Pieces)
    requires Apart(units, tail)
    ensures Shut(units, tail)
  {
    hide PrintDoc, DotNext, AsNext;
    if units != [] {
      Follows(units, tail);
      ApartShuts(units[1..], tail);
    }
  }

  /** A printed file reads back, statement by statement. */
  lemma {:induction false} DocReads(units: seq<Unit>, tail: Pieces)
    requires IsDoc(units, tail) && Shut(units, tail)
    ensures ReadDoc(PrintDoc(units, tail)) == Some(Doc(units, tail))
    decreases |units|
  {
    hide ReadStmt, Print, IsStmt, Closed, Plain;
    if units == [] {
      assert tail + [] == tail;
      PlainIs(tail, []);
    } else {
      var u, rest := units[0], units[1..];
      var f := PrintDoc(rest, tail);
      DocReads(rest, tail);
      StmtReads(u.stmt, f);
      var ps := u.pre + (Print(u.stmt) + f);
      PlainIs(u.pre, Print(u.stmt) + f);
      assert ps[|u.pre| + 1..] == ps[|u.pre|..][1..];
      ReadOne(ps, u, f);
      assert [u] + rest == units;
    }
  }

  lemma ReadOne(ps: Pieces, u: Unit, f: Pieces)
    requires Plain(ps) == |u.pre| < |ps| && ps[..|u.pre|] == u.pre && ReadStmt(ps[|u.pre| + 1..]) == Ok(u.stmt, f)
    ensures ReadDoc(ps) == AddUnit(u, ReadDoc(f))
  {
    hide ReadStmt, Plain;
  }

  /** What stands behind the first statement. */
  lemma Follows(units: seq<Unit>, tail: Pieces)
    requires units != [] && Apart(units, tail)
    ensures Clear(PrintDoc(units[1..], tail))
  {
    hide Clear, Print;
    var rest := units[1..];
    if rest != [] {
      var u := rest[0];
      assert u == units[1];
      var f := Print(u.stmt) + PrintDoc(rest[1..], tail);
      assert f[0] == UseKw by {
        StartsWithUse(u.stmt, PrintDoc(rest[1..], tail));
      }
      ClearMore(u.pre, f);
    }
  }

  lemma StartsWithUse(s: Stmt, f: Pieces)
    ensures Print(s) + f != [] && (Print(s) + f)[0] == UseKw
  {
  }

  // ---------- Runs ----------

  lemma {:induction false} RunLenIs(units: seq<Unit>, n: nat)
    requires 1 <= n <= |units| && forall i :: 1 <= i < n ==> !Ends(units[i].pre)
    requires n < |units| ==> Ends(units[n].pre)
    ensures RunLen(units) == n
  {
    if n > 1 {
      RunLenIs(units[1..], n - 1);
    }
  }

  lemma OneBreak()
    ensures !Ends([Break]) && Clear([Break]) && UseKw !in [Break]
  {
    assert Text([Break]) == "\n" + Text([]) == "\n";
    assert Count("\n", '\n') == 1;
    assert Lead([Break]) == 1;
  }

  lemma OrderedKeeps(ss: seq<Stmt>)
    ensures |Ordered(ss)| == |ss| && multiset(Ordered(ss)) == multiset(ss)
    ensures forall i :: 0 <= i < |ss| ==> Ordered(ss)[i] in ss
  {
    SortKeeps(ss, ByPath());
    SortPart(ss, ByPath());
  }

  /** A run that is settled is settled for good. */
  lemma RunSettles(run: seq<Unit>)
    requires run != [] && forall i :: 0 <= i < |run| ==> IsStmt(run[i].stmt)
    ensures SettleRun(run) != [] && SettleRun(SettleRun(run)) == SettleRun(run)
  {
    hide Tidy, IsStmt, Frozen, PathText, Before;
    var ss := Stmts(run);
    OrderedKeeps(ss);
    var os, r := Ordered(ss), SettleRun(run);
    forall i | 0 <= i < |os|
      ensures IsStmt(os[i]) && Tidy(Tidy(os[i])) == Tidy(os[i]) && PathText(Tidy(os[i])) == PathText(os[i])
      ensures Frozen(Tidy(os[i])) <==> Frozen(os[i])
    {
      assert os[i] in ss;
      TidyTwice(os[i]);
    }
    var ts := Stmts(r);
    assert AnyFrozen(ts) <==> AnyFrozen(os) by {
      FrozenAlike(ts, os);
    }
    if AnyFrozen(ss) {
      assert os == ss;
    } else {
      KeysStrict();
      hide Strict;
      SortSorted(ss, ByPath());
      NoneFrozen(ss, os);
      SortedAlike(os, ts);
      SortStays(ts, ByPath());
    }
    assert Ordered(ts) == ts;
  }

  lemma FrozenAlike(a: seq<Stmt>, b: seq<Stmt>)
    requires |a| == |b| && forall i :: 0 <= i < |a| ==> (Frozen(a[i]) <==> Frozen(b[i]))
    ensures AnyFrozen(a) <==> AnyFrozen(b)
  {
    hide Frozen;
  }

  lemma NoneFrozen(a: seq<Stmt>, b: seq<Stmt>)
    requires !AnyFrozen(a) && forall i :: 0 <= i < |b| ==> b[i] in a
    ensures !AnyFrozen(b)
  {
    hide Frozen;
  }

  lemma SortedAlike(a: seq<Stmt>, b: seq<Stmt>)
    requires |a| == |b| && Sorted(a, ByPath()) && forall i :: 0 <= i < |a| ==> PathText(b[i]) == PathText(a[i])
    ensures Sorted(b, ByPath())
  {
    hide PathText, Before;
    forall i | 0 <= i < |b| - 1
      ensures !ByPath()(b[i + 1], b[i])
    {
      assert !ByPath()(a[i + 1], a[i]);
    }
  }

  /** A settled run in front of a settled rest. */
  lemma JoinDocs(a: seq<Unit>, b: seq<Unit>, tail: Pieces)
    requires a != [] && IsDoc(b, tail) && Apart(b, tail) && (b != [] ==> Clear(b[0].pre))
    requires forall i :: 0 <= i < |a| ==> UseKw !in a[i].pre && IsStmt(a[i].stmt)
    requires forall i :: 1 <= i < |a| ==> Clear(a[i].pre)
    ensures IsDoc(a + b, tail) && Apart(a + b, tail)
  {
    hide IsStmt, Clear;
    var all := a + b;
    forall i | 0 <= i < |all|
      ensures UseKw !in all[i].pre && IsStmt(all[i].stmt) && (i >= 1 ==> Clear(all[i].pre))
    {
      if i < |a| {
        assert all[i] == a[i];
      } else {
        assert all[i] == b[i - |a|];
      }
    }
  }

  /** Settling a settled run in front of a settled rest. */
  lemma JoinSettled(a: seq<Unit>, b: seq<Unit>)
    requires a != [] && SettleRun(a) == a && Settle(b) == b
    requires (forall i :: 1 <= i < |a| ==> !Ends(a[i].pre)) && (b != [] ==> Ends(b[0].pre))
    ensures Settle(a + b) == a + b
  {
    hide SettleRun, Ends;
    var n := |a|;
    assert forall i :: 1 <= i < n ==> (a + b)[i] == a[i];
    assert b != [] ==> (a + b)[n] == b[0];
    RunLenIs(a + b, n);
    assert (a + b)[..n] == a && (a + b)[n..] == b;
  }

  /** The rest of a file, behind its first run. */
  lemma Rest(units: seq<Unit>, tail: Pieces, n: nat)
    requires IsDoc(units, tail) && Apart(units, tail) && 1 <= n <= |units|
    ensures IsDoc(units[n..], tail) && Apart(units[n..], tail)
    ensures n < |units| ==> Clear(units[n..][0].pre)
  {
    hide IsStmt, Clear;
  }

  /** Settling keeps a file readable and its statements apart, and is done once. */
  lemma {:induction false} SettleKeeps(units: seq<Unit>, tail: Pieces)
    requires IsDoc(units, tail) && Apart(units, tail)
    ensures |Settle(units)| == |units| && IsDoc(Settle(units), tail) && Apart(Settle(units), tail)
    ensures units != [] ==> Settle(units)[0].pre == units[0].pre
    ensures Settle(Settle(units)) == Settle(units)
    decreases |units|
  {
    hide IsStmt, Clear, Ends, SettleRun, Apart;
    if units != [] {
      var n := RunLen(units);
      var run, rest := units[..n], units[n..];
      Rest(units, tail, n);
      SettleKeeps(rest, tail);
      RunKeeps(run);
      RunSettles(run);
      OneBreak();
      JoinDocs(SettleRun(run), Settle(rest), tail);
      JoinSettled(SettleRun(run), Settle(rest));
    }
  }

  /** The statements of a settled run and the gaps between them. */
  lemma RunKeeps(run: seq<Unit>)
    requires run != [] && forall i :: 0 <= i < |run| ==> IsStmt(run[i].stmt)
    ensures |SettleRun(run)| == |run| && SettleRun(run)[0].pre == run[0].pre
    ensures forall i :: 0 <= i < |run| ==> IsStmt(SettleRun(run)[i].stmt)
    ensures forall i :: 1 <= i < |run| ==> SettleRun(run)[i].pre == [Break]
  {
    hide Tidy, IsStmt;
    var ss := Stmts(run);
    OrderedKeeps(ss);
    var os := Ordered(ss);
    forall i | 0 <= i < |os|
      ensures IsStmt(Tidy(os[i]))
    {
      assert os[i] in ss;
      TidyTwice(os[i]);
    }
  }

  // ---------- The whole pass ----------

  /** Where no statement is continued by what follows it, the pass is done after one
      time: the second changes nothing. */
  lemma NormalizeTwice(ps: Pieces)
    requires ReadDoc(ps) != None ==> Apart(ReadDoc(ps).value.units, ReadDoc(ps).value.tail)
    ensures Normalize(Normalize(ps)) == Normalize(ps)
  {
    hide ReadDoc, PrintDoc, Settle, IsDoc, Apart, Shut;
    if ReadDoc(ps) != None {
      var d := ReadDoc(ps).value;
      DocPrints(ps);
      SettleKeeps(d.units, d.tail);
      ApartShuts(Settle(d.units), d.tail);
      DocReads(Settle(d.units), d.tail);
    }
  }

  // ---------- What is kept ----------

  /** What a statement imports: a path, and the items of its group. */
  datatype Import = Import(path: Pieces, items: multiset<Item>)

  function ItemOf(e: Entry): Item { e.item }

  function Imports(s: Stmt): Import {
    Import(PrintPath(s), if s.group == None then multiset{} else Bag(s.group.value.entries, ItemOf))
  }

  function ImportsOf(u: Unit): Import { Imports(u.stmt) }

  lemma {:induction false} BagAlike<T, U, V>(a: seq<T>, b: seq<U>, f: T -> V, g: U -> V)
    requires |a| == |b| && forall i :: 0 <= i < |a| ==> f(a[i]) == g(b[i])
    ensures Bag(a, f) == Bag(b, g)
  {
    if a != [] {
      assert forall i :: 0 <= i < |a| - 1 ==> a[1..][i] == a[i + 1] && b[1..][i] == b[i + 1];
      BagAlike(a[1..], b[1..], f, g);
    }
  }

  /** Tidying keeps the path and the items; an alias is kept by what stays as it is. */
  lemma TidyKeeps(s: Stmt)
    ensures Imports(Tidy(s)) == Imports(s)
    ensures Tidy(s) == s || Tidy(s).alias == None
  {
    hide Frozen, TooLong, SingleLine, Sort;
    if s.group != None && Tidy(s) != s {
      var es := s.group.value.entries;
      var r := Tidy(s).group.value.entries;
      SamePath(s, Tidy(s));
      BagSort(es, ByKey(), ItemOf);
      BagAlike(Sort(es, ByKey()), r, ItemOf, ItemOf);
    }
  }

  lemma RunKeepsImports(run: seq<Unit>)
    requires run != []
    ensures Bag(SettleRun(run), ImportsOf) == Bag(run, ImportsOf)
  {
    hide Tidy, Imports, Frozen;
    var ss := Stmts(run);
    var os := Ordered(ss);
    BagSort(ss, ByPath(), Imports);
    BagAlike(ss, run, Imports, ImportsOf);
    forall i | 0 <= i < |os|
      ensures Imports(Tidy(os[i])) == Imports(os[i])
    {
      TidyKeeps(os[i]);
    }
    BagAlike(os, SettleRun(run), Imports, ImportsOf);
  }

  /** Every statement is still there, with its path and its items. */
  lemma {:induction false} NoImportIsLost(units: seq<Unit>)
    ensures Bag(Settle(units), ImportsOf) == Bag(units, ImportsOf)
    decreases |units|
  {
    hide SettleRun, ImportsOf, Bag;
    if units != [] {
      var n := RunLen(units);
      var run, rest := units[..n], units[n..];
      assert units == run + rest;
      RunKeepsImports(run);
      NoImportIsLost(rest);
      BagAppend(run, rest, ImportsOf);
      BagAppend(SettleRun(run), Settle(rest), ImportsOf);
    }
  }

  // ---------- Where it fails ----------

  function Lone(x: string): Entry { Entry([Break], Item(Word(x), []), []) }

  /** `use path.{ … }` with each item on a new line, behind what stands before it. */
  function Grouped(first: string, segs: seq<Seg>, es: seq<Entry>): Stmt {
    Stmt(SPACE, Word(first), segs, Some(Group([], [], es, false, [])), None)
  }

  lemma GroupedIs(first: string, segs: seq<Seg>, es: seq<Entry>)
    requires first != "as" && es != [] && forall i :: 0 <= i < |es| ==> IsEntry(es[i]) && es[i].lead == [Break]
    requires forall i :: 0 <= i < |segs| ==> IsSeg(segs[i])
    ensures var s := Grouped(first, segs, es); IsStmt(s) && !SingleLine(s.group.value)
  {
    hide PrintItem, IsItem;
    var e, rest := es[0], es[1..];
    assert [e] + rest == es;
    EntriesNext(e, rest, false, []);
    assert Break in e.lead;
    if rest != [] {
      assert Break in Entered(e, Comma, PrintEntries(rest, false, []));
    } else {
      assert es == [e];
      assert Break in Entered(e, RBrace, []);
    }
  }

  lemma LoneNotes(x: string)
    requires x != "as"
    ensures NoNote(Lone(x)) && IsEntry(Lone(x))
  {
    assert PrintItem(Item(Word(x), [])) == [Word(x)];
  }

  /** Statements like these have no comment. */
  lemma GroupedNotes(first: string, segs: seq<Seg>, es: seq<Entry>, alias: Option<Alias>)
    requires !HasNote(PrintSegs(segs)) && !HasNote(PrintAlias(alias))
    requires forall i :: 0 <= i < |es| ==> NoNote(es[i])
    ensures !Frozen(Grouped(first, segs, es).(alias := alias))
  {
    hide HasNote, NoNote, PrintSegs, PrintAlias, PrintEntries, PrintGroup;
    var s := Grouped(first, segs, es).(alias := alias);
    StmtNotes(s);
    GroupNotes(s.group.value);
    EntriesNotes(es, false, []);
    NoneAtAll();
    NoteOne(Blank(" "));
    NoteOne(Word(first));
    NoteEither([Word(first)], PrintSegs(segs));
  }

  /** The alias of a group goes when the group is sorted: `use a.{ c, b } as d`. */
  lemma AliasIsLost()
    ensures
      var s := Grouped("a", [], [Lone("c"), Lone("b")]).(alias := Some(Alias(SPACE, SPACE, Word("d"))));
      IsStmt(s) && Tidy(s).alias == None
  {
    hide Frozen, SingleLine, Text, Print;
    var es := [Lone("c"), Lone("b")];
    GroupedIs("a", [], es);
    var s := Grouped("a", [], es).(alias := Some(Alias(SPACE, SPACE, Word("d"))));
    LoneNotes("c");
    LoneNotes("b");
    assert PrintAlias(s.alias) == [Blank(" "), Word("as"), Blank(" "), Word("d")];
    GroupedNotes("a", [], es, s.alias);
    assert ByKey()(es[1], es[0]);
  }

  /** What stands between two statements of a run does not show in the result, not
      even tokens. */
  lemma TextBetweenIsLost(pre: Pieces, s: Stmt, gap: Pieces, t: Stmt)
    requires !Ends(gap)
    ensures Settle([Unit(pre, s), Unit(gap, t)]) == Settle([Unit(pre, s), Unit([Break], t)])
  {
    hide Tidy, Ordered, Ends;
    var a, b := [Unit(pre, s), Unit(gap, t)], [Unit(pre, s), Unit([Break], t)];
    OneBreak();
    RunLenIs(a, 2);
    RunLenIs(b, 2);
    assert a[..2] == a && b[..2] == b && a[2..] == [] && b[2..] == [];
    assert Stmts(a) == Stmts(b) == [s, t];
  }

  // `use b.c`, then `use a.{ x }` with `.{ z, y }` behind it
  const PLAIN_USE := Stmt(SPACE, Word("b"), [Seg([], [], Word("c"))], None, None)
  const GROUP_USE := Grouped("a", [], [Lone("x")])
  const STRAY: Pieces := [Dot, LBrace, Break, Word("z"), Comma, Break, Word("y"), RBrace]

  /** `b.c` with the stray group as its own. */
  function Grown(): Stmt { Grouped("b", [Seg([], [], Word("c"))], [Lone("z"), Lone("y")]) }

  lemma StrayJoins()
    ensures Print(PLAIN_USE) + STRAY == Print(Grown()) + []
  {
    var seg := Seg([], [], Word("c"));
    assert PrintSegs([seg]) == [Dot, Word("c")];
    var es := [Lone("z"), Lone("y")];
    assert [Lone("z")] + [Lone("y")] == es;
    EntriesNext(Lone("z"), [Lone("y")], false, []);
    EntriesNext(Lone("y"), [], false, []);
    assert PrintItem(Item(Word("z"), [])) == [Word("z")] && PrintItem(Item(Word("y"), [])) == [Word("y")];
    assert PrintEntries([Lone("y")], false, []) == [Break, Word("y"), RBrace];
    assert PrintEntries(es, false, []) == [Break, Word("z"), Comma, Break, Word("y"), RBrace];
  }

  lemma SmallStmts()
    ensures IsStmt(PLAIN_USE) && !Frozen(PLAIN_USE) && Tidy(PLAIN_USE) == PLAIN_USE && PathText(PLAIN_USE) == "b.c"
    ensures IsStmt(GROUP_USE) && !Frozen(GROUP_USE) && Tidy(GROUP_USE) == GROUP_USE && PathText(GROUP_USE) == "a"
    ensures IsStmt(Grown()) && Tidy(Grown()) != Grown()
  {
    hide Frozen, SingleLine, Text, Print, PrintEntries;
    var seg := Seg([], [], Word("c"));
    assert PrintSegs([seg]) == [Dot, Word("c")];
    var x, z, y := [Lone("x")], [Lone("z"), Lone("y")], ByKey();
    LoneNotes("x");
    LoneNotes("y");
    LoneNotes("z");
    GroupedIs("a", [], x);
    GroupedIs("b", [seg], z);
    NoneAtAll();
    GroupedNotes("a", [], x, None);
    GroupedNotes("b", [seg], z, None);
    StmtNotes(PLAIN_USE);
    assert PathText(PLAIN_USE) == "b.c" by {
      assert PrintPath(PLAIN_USE) == [Word("b"), Dot, Word("c")];
      TextThree();
    }
    assert PathText(GROUP_USE) == "a" by {
      assert PrintPath(GROUP_USE) == [Word("a")];
      TextOne();
    }
    assert y(z[1], z[0]);
    KeysStrict();
    SortSorted(z, y);
    LaidSorted(Sort(z, y), SPACE, SPACE);
    LaidSorted(Sort(z, y), LINE, [Break]);
    LaidSorted(Sort(z, y), LINE, []);
  }

  lemma TextOne()
    ensures Text([Word("a")]) == "a"
  {
    assert Text([Word("a")]) == "a" + Text([]);
  }

  lemma TextThree()
    ensures Text([Word("b"), Dot, Word("c")]) == "b.c"
  {
    assert [Word("b"), Dot, Word("c")][1..] == [Dot, Word("c")] && [Dot, Word("c")][1..] == [Word("c")];
    assert Text([Word("c")]) == "c" + Text([]);
    assert Text([Dot, Word("c")]) == "." + Text([Word("c")]) == ".c";
  }

  lemma DocNext(u: Unit, rest: seq<Unit>, tail: Pieces)
    ensures PrintDoc([u] + rest, tail) == u.pre + (Print(u.stmt) + PrintDoc(rest, tail))
    ensures Shut([u] + rest, tail) <==> Closed(u.stmt, PrintDoc(rest, tail)) && Shut(rest, tail)
    ensures PrintDoc([], tail) == tail && Shut([], tail)
  {
    hide Print, Closed;
    assert ([u] + rest)[1..] == rest;
  }

  lemma PrintTwo(a: Unit, b: Unit, tail: Pieces)
    ensures PrintDoc([a, b], tail) == a.pre + (Print(a.stmt) + (b.pre + (Print(b.stmt) + tail)))
    ensures Shut([a, b], tail) <==>
      Closed(a.stmt, b.pre + (Print(b.stmt) + tail)) && Closed(b.stmt, tail)
  {
    hide Print, Closed, PrintDoc, Shut;
    assert [a] + [b] == [a, b] && [b] + [] == [b];
    DocNext(a, [b], tail);
    DocNext(b, [], tail);
  }

  lemma StrayShut()
    ensures Shut([Unit([], PLAIN_USE), Unit([Break], GROUP_USE)], STRAY)
  {
    hide Print, Shut;
    PrintTwo(Unit([], PLAIN_USE), Unit([Break], GROUP_USE), STRAY);
    OneBreak();
    StartsWithUse(GROUP_USE, STRAY);
    ClearMore([Break], Print(GROUP_USE) + STRAY);
    assert Lead(STRAY) == 0;
  }

  lemma StrayReads()
    ensures
      var u, w := [Unit([], PLAIN_USE), Unit([Break], GROUP_USE)], [Unit([], GROUP_USE), Unit([Break], Grown())];
      && ReadDoc(PrintDoc(u, STRAY)) == Some(Doc(u, STRAY))
      && PrintDoc([Unit([], GROUP_USE), Unit([Break], PLAIN_USE)], STRAY) == PrintDoc(w, [])
      && IsDoc(w, []) && Apart(w, [])
  {
    hide Print, IsStmt, PrintDoc, Shut, ReadDoc, Tidy, Frozen, Text, Ends, Grown, Grouped;
    SmallStmts();
    StrayJoins();
    OneBreak();
    var u := [Unit([], PLAIN_USE), Unit([Break], GROUP_USE)];
    PrintTwo(Unit([], GROUP_USE), Unit([Break], PLAIN_USE), STRAY);
    PrintTwo(Unit([], GROUP_USE), Unit([Break], Grown()), []);
    StrayShut();
    DocReads(u, STRAY);
  }

  /** A second pass that reads other statements than the first one wrote. */
  lemma SecondPass(ps: Pieces, u: seq<Unit>, v: seq<Unit>, tail: Pieces, w: seq<Unit>)
    requires ReadDoc(ps) == Some(Doc(u, tail)) && Settle(u) == v && PrintDoc(v, tail) == PrintDoc(w, [])
    requires IsDoc(w, []) && Apart(w, []) && Settle(w) != w
    ensures Normalize(Normalize(ps)) != Normalize(ps)
  {
    hide PrintDoc, ReadDoc, Settle, IsDoc, Apart, Shut;
    SettleKeeps(w, []);
    ApartShuts(Settle(w), []);
    ApartShuts(w, []);
    DocReads(Settle(w), []);
    DocReads(w, []);
  }

  /** Why statements must not be gone on with: sorting `use a.{ x }` ahead of `use b.c`
      leaves the stray `.{ z, y }` behind `b.c`, and the next pass sorts that, too. */
  lemma OnceIsNotEnough()
    ensures
      var ps := PrintDoc([Unit([], PLAIN_USE), Unit([Break], GROUP_USE)], STRAY);
      Normalize(Normalize(ps)) != Normalize(ps)
  {
    hide PrintDoc, ReadDoc, Settle, IsDoc, Apart, Normalize, Ends, Grouped, Grown;
    var u, v, w := [Unit([], PLAIN_USE), Unit([Break], GROUP_USE)],
      [Unit([], GROUP_USE), Unit([Break], PLAIN_USE)], [Unit([], GROUP_USE), Unit([Break], Grown())];
    StrayReads();
    SettledPair(u, v);
    OneBreak();
    LastIsTidy(w);
    SecondPass(PrintDoc(u, STRAY), u, v, STRAY, w);
  }

  /** The two statements change places. */
  lemma SettledPair(u: seq<Unit>, v: seq<Unit>)
    requires u == [Unit([], PLAIN_USE), Unit([Break], GROUP_USE)]
    requires v == [Unit([], GROUP_USE), Unit([Break], PLAIN_USE)]
    ensures Settle(u) == v
  {
    hide Frozen, Tidy, PathText, Ends, Grown, Grouped, Text, Print;
    SmallStmts();
    OneBreak();
    RunLenIs(u, 2);
    assert u[..2] == u && u[2..] == [];
    var ss := [PLAIN_USE, GROUP_USE];
    assert Stmts(u) == ss && ss[1..] == [GROUP_USE] && [GROUP_USE][1..] == [];
    assert ByPath()(GROUP_USE, PLAIN_USE);
    SortTwo(PLAIN_USE, GROUP_USE, ByPath());
    assert !AnyFrozen(ss);
  }

  /** The last statement of a settled file has been tidied, so it is not `Grown`. */
  lemma {:induction false} LastIsTidy(w: seq<Unit>)
    requires |w| == 2 && IsDoc(w, []) && !Ends(w[1].pre)
    ensures Settle(w) != w || w[1].stmt != Grown()
  {
    hide Tidy, IsStmt, Frozen;
    RunLenIs(w, 2);
    assert w[..2] == w && w[2..] == [];
    var ss := Stmts(w);
    OrderedKeeps(ss);
    var s := Ordered(ss)[1];
    assert s in ss;
    TidyTwice(s);
    SmallStmts();
  }
}
