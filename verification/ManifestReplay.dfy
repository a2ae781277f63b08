/** How canonical text drives a reader, whatever its state: `idle` says that it is
    between blocks, with some blocks read and some comments waiting; `busy` that it is
    inside a block of which some part has been read. */
module ManifestReplay {
  import opened Options
  import opened Text
  import opened Manifest
  import opened ManifestRender
  import opened ManifestLaws

  datatype Reader<!S> = Reader(
    step: (S, nat, string) -> S, idle: (S, seq<Content>, seq<string>) -> bool, busy: (S, seq<Content>, Content) -> bool)

  /** What a block starts as. */
  function Opened(c: Content): Content { c.(rows := [], free := []) }

  ghost predicate TakesEmpty<S(!new)>(r: Reader<S>) {
    forall s: S, n: nat, done, lead, x ::
      r.idle(s, done, lead) && x == "" ==> r.idle(r.step(s, n, x), done, lead)
  }

  ghost predicate TakesNote<S(!new)>(r: Reader<S>) {
    forall s: S, n: nat, done, lead, x ::
      r.idle(s, done, lead) && IsNote(x) ==> r.idle(r.step(s, n, Comment("", x)), done, lead + [x])
  }

  ghost predicate TakesHead<S(!new)>(r: Reader<S>) {
    forall s: S, n: nat, done, c: Content ::
      r.idle(s, done, c.lead) && IsContent(c) ==> r.busy(r.step(s, n, HeadLine(c)), done, Opened(c))
  }

  ghost predicate TakesInnerNote<S(!new)>(r: Reader<S>) {
    forall s: S, n: nat, done, c: Content, x ::
      r.busy(s, done, c) && IsNote(x) ==> r.busy(r.step(s, n, Comment(INDENT, x)), done, c.(free := c.free + [x]))
  }

  ghost predicate TakesRow<S(!new)>(r: Reader<S>) {
    forall s: S, n: nat, done, c: Content, row ::
      r.busy(s, done, c) && IsRow(row) && c.free == row.lead ==>
      r.busy(r.step(s, n, RowLine(row)), done, c.(free := [], rows := c.rows + [row]))
  }

  ghost predicate TakesEnd<S(!new)>(r: Reader<S>) {
    forall s: S, n: nat, done, c: Content, x ::
      r.busy(s, done, c) && x == "}" ==> r.idle(r.step(s, n, x), done + [c], [])
  }

  /** The reader takes each kind of canonical line as it is meant. */
  ghost predicate Sound<S(!new)>(r: Reader<S>) {
    TakesEmpty(r) && TakesNote(r) && TakesHead(r) && TakesInnerNote(r) && TakesRow(r) && TakesEnd(r)
  }

  // ---------- Runs of lines ----------

  lemma {:induction false} FoldAppend<S>(step: (S, nat, string) -> S, s: S, line: nat, a: seq<string>, b: seq<string>)
    ensures Fold(step, s, line, a + b) == Fold(step, Fold(step, s, line, a), line + |a|, b)
    decreases |a|
  {
    if a == [] {
      AppendNothing(b);
    } else {
      FoldAppend(step, step(s, line, a[0]), line + 1, a[1..], b);
      assert (a + b)[1..] == a[1..] + b;
    }
  }

  lemma FoldOne<S>(step: (S, nat, string) -> S, s: S, line: nat, a: seq<string>, x: string)
    ensures Fold(step, s, line, a + [x]) == step(Fold(step, s, line, a), line + |a|, x)
  {
    FoldAppend(step, s, line, a, [x]);
  }

  lemma CommentsNext(pad: string, xs: seq<string>)
    requires xs != []
    ensures CommentLines(pad, xs) != [] && CommentLines(pad, xs)[0] == Comment(pad, xs[0])
    ensures CommentLines(pad, xs)[1..] == CommentLines(pad, xs[1..])
  {
    hide Comment;
  }

  /** Taking the first of `b` over to `a`. */
  lemma MoveOne<T>(a: seq<T>, b: seq<T>)
    requires b != []
    ensures a + [b[0]] + b[1..] == a + b
  {
    Assoc(a, [b[0]], b[1..]);
    FirstAndRest(b);
  }

  lemma {:induction false} IdleComments<S(!new)>(
      r: Reader<S>, s: S, line: nat, done: seq<Content>, lead: seq<string>, xs: seq<string>)
    requires TakesNote(r) && r.idle(s, done, lead) && AllNotes(xs)
    ensures r.idle(Fold(r.step, s, line, CommentLines("", xs)), done, lead + xs)
    decreases |xs|
  {
    hide CommentLines, Comment, IsNote;
    AppendNothing(lead);
    if xs != [] {
      CommentsNext("", xs);
      assert r.idle(r.step(s, line, Comment("", xs[0])), done, lead + [xs[0]]);
      IdleComments(r, r.step(s, line, Comment("", xs[0])), line + 1, done, lead + [xs[0]], xs[1..]);
      MoveOne(lead, xs);
    }
  }

  lemma {:induction false} BusyComments<S(!new)>(
      r: Reader<S>, s: S, line: nat, done: seq<Content>, c: Content, xs: seq<string>)
    requires TakesInnerNote(r) && r.busy(s, done, c) && AllNotes(xs)
    ensures r.busy(Fold(r.step, s, line, CommentLines(INDENT, xs)), done, c.(free := c.free + xs))
    decreases |xs|
  {
    hide CommentLines, Comment, IsNote;
    AppendNothing(c.free);
    if xs != [] {
      CommentsNext(INDENT, xs);
      var c' := c.(free := c.free + [xs[0]]);
      assert r.busy(r.step(s, line, Comment(INDENT, xs[0])), done, c');
      BusyComments(r, r.step(s, line, Comment(INDENT, xs[0])), line + 1, done, c', xs[1..]);
      MoveOne(c.free, xs);
    }
  }

  /** A row with the comments above it. */
  function RowBlock(row: Row): seq<string> { CommentLines(INDENT, row.lead) + [RowLine(row)] }

  lemma BusyRow<S(!new)>(r: Reader<S>, s: S, line: nat, done: seq<Content>, c: Content, row: Row)
    requires TakesInnerNote(r) && TakesRow(r) && r.busy(s, done, c) && c.free == [] && IsRow(row)
    ensures r.busy(Fold(r.step, s, line, RowBlock(row)), done, c.(rows := c.rows + [row]))
  {
    var lead := CommentLines(INDENT, row.lead);
    assert AllNotes(row.lead);
    hide TakesInnerNote, Fold, CommentLines, RowLine, IsRow, AllNotes;
    BusyComments(r, s, line, done, c, row.lead);
    AppendNothing(row.lead);
    FoldOne(r.step, s, line, lead, RowLine(row));
    assert r.busy(Fold(r.step, s, line, lead), done, c.(free := row.lead));
  }

  lemma {:induction false} BusyRows<S(!new)>(
      r: Reader<S>, s: S, line: nat, done: seq<Content>, c: Content, rows: seq<Row>)
    requires TakesInnerNote(r) && TakesRow(r) && r.busy(s, done, c) && c.free == []
    requires forall i :: 0 <= i < |rows| ==> IsRow(rows[i])
    ensures r.busy(Fold(r.step, s, line, RowLines(rows)), done, c.(rows := c.rows + rows))
    decreases |rows|
  {
    hide TakesInnerNote, TakesRow, RowBlock, IsRow;
    if rows == [] {
      AppendNothing(c.rows);
    } else {
      hide Fold, RowLines;
      var s' := Fold(r.step, s, line, RowBlock(rows[0]));
      BusyRow(r, s, line, done, c, rows[0]);
      BusyRows(r, s', line + |RowBlock(rows[0])|, done, c.(rows := c.rows + [rows[0]]), rows[1..]);
      RowsSplit(r.step, s, line, rows);
      MoveOne(c.rows, rows);
    }
  }

  lemma RowsSplit<S>(step: (S, nat, string) -> S, s: S, line: nat, rows: seq<Row>)
    requires rows != []
    ensures
      var first := RowBlock(rows[0]);
      Fold(step, s, line, RowLines(rows)) == Fold(step, Fold(step, s, line, first), line + |first|, RowLines(rows[1..]))
  {
    assert RowLines(rows) == RowBlock(rows[0]) + RowLines(rows[1..]);
    hide Fold, RowLines, RowBlock;
    FoldAppend(step, s, line, RowBlock(rows[0]), RowLines(rows[1..]));
  }

  /** A block up to its first row. */
  function HeadBlock(c: Content): seq<string> { CommentLines("", c.lead) + [HeadLine(c)] }

  lemma IdleHead<S(!new)>(r: Reader<S>, s: S, line: nat, done: seq<Content>, c: Content)
    requires TakesNote(r) && TakesHead(r) && r.idle(s, done, []) && IsContent(c)
    ensures r.busy(Fold(r.step, s, line, HeadBlock(c)), done, Opened(c))
  {
    var lead := CommentLines("", c.lead);
    assert AllNotes(c.lead);
    hide TakesNote, Fold, CommentLines, HeadLine, IsContent, AllNotes;
    IdleComments(r, s, line, done, [], c.lead);
    AppendNothing(c.lead);
    FoldOne(r.step, s, line, lead, HeadLine(c));
  }

  /** A block after its last row. */
  function EndBlock(free: seq<string>): seq<string> { CommentLines(INDENT, free) + ["}"] }

  lemma BusyEnd<S(!new)>(r: Reader<S>, s: S, line: nat, done: seq<Content>, c: Content, free: seq<string>)
    requires TakesInnerNote(r) && TakesEnd(r) && r.busy(s, done, c) && c.free == [] && AllNotes(free)
    ensures r.idle(Fold(r.step, s, line, EndBlock(free)), done + [c.(free := free)], [])
  {
    var lines := CommentLines(INDENT, free);
    hide TakesInnerNote, Fold, CommentLines, AllNotes;
    BusyComments(r, s, line, done, c, free);
    AppendNothing(free);
    FoldOne(r.step, s, line, lines, "}");
  }

  lemma FoldThree<S>(step: (S, nat, string) -> S, s: S, line: nat, a: seq<string>, b: seq<string>, c: seq<string>)
    ensures
      var s1, n1 := Fold(step, s, line, a), line + |a|;
      var s2, n2 := Fold(step, s1, n1, b), n1 + |b|;
      Fold(step, s, line, a + b + c) == Fold(step, s2, n2, c)
  {
    hide Fold;
    FoldAppend(step, s, line, a + b, c);
    FoldAppend(step, s, line, a, b);
  }

  lemma BlockParts(c: Content)
    ensures BlockLines(c) == HeadBlock(c) + RowLines(c.rows) + EndBlock(c.free)
  {
    hide CommentLines, HeadLine, RowLines;
    Assoc(HeadBlock(c) + RowLines(c.rows), CommentLines(INDENT, c.free), ["}"]);
  }

  lemma IdleBlock<S(!new)>(r: Reader<S>, s: S, line: nat, done: seq<Content>, c: Content)
    requires Sound(r) && r.idle(s, done, []) && IsContent(c)
    ensures r.idle(Fold(r.step, s, line, BlockLines(c)), done + [c], [])
  {
    assert AllNotes(c.free) && forall i :: 0 <= i < |c.rows| ==> IsRow(c.rows[i]);
    hide Fold, BlockLines, HeadBlock, EndBlock, RowLines, IsContent, IsRow, AllNotes;
    hide TakesEmpty, TakesNote, TakesHead, TakesInnerNote, TakesRow, TakesEnd;
    var s1, n1 := Fold(r.step, s, line, HeadBlock(c)), line + |HeadBlock(c)|;
    IdleHead(r, s, line, done, c);
    BusyRows(r, s1, n1, done, Opened(c), c.rows);
    AppendNothing(c.rows);
    var s2, n2 := Fold(r.step, s1, n1, RowLines(c.rows)), n1 + |RowLines(c.rows)|;
    BusyEnd(r, s2, n2, done, c.(free := []), c.free);
    FoldThree(r.step, s, line, HeadBlock(c), RowLines(c.rows), EndBlock(c.free));
    BlockParts(c);
  }

  lemma {:induction false} IdleBody<S(!new)>(r: Reader<S>, s: S, line: nat, done: seq<Content>, cs: seq<Content>)
    requires Sound(r) && r.idle(s, done, []) && forall i :: 0 <= i < |cs| ==> IsContent(cs[i])
    ensures r.idle(Fold(r.step, s, line, BodyLines(cs)), done + cs, [])
    decreases |cs|
  {
    if cs == [] {
      AppendNothing(done);
      assert r.idle(r.step(s, line, ""), done, []);
    } else {
      hide Fold, BlockLines, IsContent, TakesEmpty, TakesNote, TakesHead, TakesInnerNote, TakesRow, TakesEnd;
      IdleBlock(r, s, line, done, cs[0]);
      if |cs| == 1 {
        FirstAndRest(cs);
        AppendNothing([cs[0]]);
      } else {
        IdleMore(r, s, line, done, cs);
      }
    }
  }

  lemma {:induction false} IdleMore<S(!new)>(r: Reader<S>, s: S, line: nat, done: seq<Content>, cs: seq<Content>)
    requires Sound(r) && |cs| > 1 && forall i :: 0 <= i < |cs| ==> IsContent(cs[i])
    requires r.idle(Fold(r.step, s, line, BlockLines(cs[0])), done + [cs[0]], [])
    ensures r.idle(Fold(r.step, s, line, BodyLines(cs)), done + cs, [])
    decreases |cs|, 0
  {
    hide Fold, BodyLines, BlockLines, IsContent, TakesNote, TakesHead, TakesInnerNote, TakesRow, TakesEnd;
    var s1, n1 := Fold(r.step, s, line, BlockLines(cs[0])), line + |BlockLines(cs[0])|;
    assert r.idle(r.step(s1, n1, ""), done + [cs[0]], []);
    IdleBody(r, r.step(s1, n1, ""), n1 + 1, done + [cs[0]], cs[1..]);
    BodySplit(r.step, s, line, cs);
    MoveOne(done, cs);
  }

  lemma BodySplit<S>(step: (S, nat, string) -> S, s: S, line: nat, cs: seq<Content>)
    requires |cs| > 1
    ensures
      var lines := BlockLines(cs[0]);
      var s1, n1 := Fold(step, s, line, lines), line + |lines|;
      Fold(step, s, line, BodyLines(cs)) == Fold(step, step(s1, n1, ""), n1 + 1, BodyLines(cs[1..]))
  {
    var lines := BlockLines(cs[0]);
    assert BodyLines(cs) == lines + [""] + BodyLines(cs[1..]);
    hide Fold, BodyLines, BlockLines;
    FoldAppend(step, s, line, lines + [""], BodyLines(cs[1..]));
    FoldOne(step, s, line, lines, "");
  }

  function TailLines(tail: seq<string>): seq<string> { if tail == [] then [] else [""] + CommentLines("", tail) }

  lemma IdleTail<S(!new)>(r: Reader<S>, s: S, line: nat, cs: seq<Content>, tail: seq<string>)
    requires TakesEmpty(r) && TakesNote(r) && r.idle(s, cs, []) && AllNotes(tail)
    ensures r.idle(Fold(r.step, s, line, TailLines(tail)), cs, tail)
  {
    if tail != [] {
      var s' := r.step(s, line, "");
      assert r.idle(s', cs, []);
      hide TakesEmpty, TakesNote, CommentLines, AllNotes;
      IdleComments(r, s', line + 1, cs, [], tail);
      AppendNothing(tail);
      HeadTail("", CommentLines("", tail));
    }
  }

  lemma DocParts(cs: seq<Content>, tail: seq<string>)
    ensures DocLines(cs, tail) == BodyLines(cs) + TailLines(tail) + [""]
  {
  }

  /** A whole text. */
  lemma IdleDoc<S(!new)>(r: Reader<S>, s: S, line: nat, cs: seq<Content>, tail: seq<string>)
    requires Sound(r) && r.idle(s, [], [])
    requires (forall i :: 0 <= i < |cs| ==> IsContent(cs[i])) && AllNotes(tail)
    ensures r.idle(Fold(r.step, s, line, DocLines(cs, tail)), cs, tail)
  {
    hide Fold, DocLines, BodyLines, TailLines, IsContent, AllNotes;
    hide TakesNote, TakesHead, TakesInnerNote, TakesRow, TakesEnd;
    var s1, n1 := Fold(r.step, s, line, BodyLines(cs)), line + |BodyLines(cs)|;
    IdleBody(r, s, line, [], cs);
    AppendNothing(cs);
    IdleTail(r, s1, n1, cs, tail);
    var s2, n2 := Fold(r.step, s1, n1, TailLines(tail)), n1 + |TailLines(tail)|;
    assert r.idle(r.step(s2, n2, ""), cs, tail);
    FoldAppend(r.step, s, line, BodyLines(cs), TailLines(tail));
    FoldOne(r.step, s, line, BodyLines(cs) + TailLines(tail), "");
    DocParts(cs, tail);
  }
}
