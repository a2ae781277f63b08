/** Reading canonical text, line by line, and the fixed point. */
module ManifestFixedPoint {
  import opened Options
  import opened Text
  import opened Manifest
  import opened ManifestRender
  import opened Sorting
  import opened ManifestLaws
  import opened ManifestTheorem
  import opened ManifestReplay

  // ---------- One line ----------

  /** Between blocks, with `done` read and `lead` waiting for the next block. */
  predicate Idle(s: State, done: seq<Content>, lead: seq<string>) {
    s.cur == None && !s.skipping && s.diags == [] && Plains(s.blocks) == done && Texts(s.lead) == lead
  }

  function Somes(xs: seq<string>): (r: seq<Option<string>>)
    ensures |r| == |xs|
  {
    seq(|xs|, i requires 0 <= i < |xs| => Some(xs[i]))
  }

  /** In a block of which `c` has been read. */
  predicate Busy(s: State, done: seq<Content>, c: Content) {
    && s.cur != None && !s.skipping && s.diags == [] && Plains(s.blocks) == done && s.lead == []
    && Plain(s.cur.value) == c && s.cur.value.free == Somes(c.free)
  }

  lemma {:induction false} TextsAppend(xs: seq<Option<string>>, x: Option<string>)
    ensures Texts(xs + [x]) == Texts(xs) + if x == None then [] else [x.value]
  {
    if xs == [] {
      AppendNothing([x]);
    } else {
      TextsAppend(xs[1..], x);
      assert (xs + [x])[1..] == xs[1..] + [x];
    }
  }

  lemma PlainsAppend(bs: seq<Block>, b: Block)
    ensures Plains(bs + [b]) == Plains(bs) + [Plain(b)]
  {
    hide Plain;
  }

  /** A line without code. */
  lemma StepNote(s: State, line: nat, text: string, cut: Cut)
    requires CutLine(text, false, false) == cut && cut.Cut? && !cut.hash && Strip(cut.code) == ""
    ensures Step(s, line, text) == Note(s, cut.trail)
  {
    hide CutLine, Strip, Note, Inside, Outside;
  }

  /** A line that holds code. */
  lemma StepCode(s: State, line: nat, text: string, cut: Cut, code: string)
    requires CutLine(text, false, false) == cut && cut.Cut? && !cut.hash && Strip(cut.code) == code && code != ""
    ensures Step(s, line, text) ==
      if s.cur != None then Inside(s, line, code, cut.trail) else Outside(s, line, code, cut.trail)
  {
    hide CutLine, Strip, Note, Inside, Outside;
  }

  lemma IdleNote(s: State, done: seq<Content>, lead: seq<string>, x: Option<string>)
    requires Idle(s, done, lead) && NonEmpty(x) == x
    ensures Idle(Note(s, x), done, lead + if x == None then [] else [x.value])
  {
    hide Texts, Plains;
    TextsAppend(s.lead, x);
  }

  lemma EmptyStep(s: State, line: nat, x: string)
    requires x == ""
    ensures Step(s, line, x) == Note(s, None)
  {
    assert CutLine(x, false, false) == Cut(x, None, false) && Strip(x) == "";
    hide CutLine, Strip, Step, Note;
    StepNote(s, line, x, Cut(x, None, false));
  }

  lemma IdleEmpty(s: State, line: nat, done: seq<Content>, lead: seq<string>, x: string)
    requires Idle(s, done, lead) && x == ""
    ensures Idle(Step(s, line, x), done, lead)
  {
    hide Idle, Step, Note;
    EmptyStep(s, line, x);
    IdleNote(s, done, lead, None);
    AppendNothing(lead);
  }

  lemma CommentStep(s: State, line: nat, pad: string, x: string)
    requires IsNote(x) && IsPlain(pad) && Blank(pad)
    ensures Step(s, line, Comment(pad, x)) == Note(s, Some(x))
  {
    hide Step, Note, CutLine, Strip, Comment, IsNote, IsPlain;
    CutComment(pad, x);
    StripPadded(pad, "", "");
    AppendNothing(pad);
    StepNote(s, line, Comment(pad, x), Cut(pad, Some(x), false));
  }

  lemma IdleComment(s: State, line: nat, done: seq<Content>, lead: seq<string>, x: string)
    requires Idle(s, done, lead) && IsNote(x)
    ensures Idle(Step(s, line, Comment("", x)), done, lead + [x])
  {
    CommaIsPlain();
    hide Idle, Step, Note, Comment, IsPlain;
    CommentStep(s, line, "", x);
    IdleNote(s, done, lead, Some(x));
  }

  lemma BusyNote(s: State, done: seq<Content>, c: Content, x: string)
    requires Busy(s, done, c) && x != ""
    ensures Busy(Note(s, Some(x)), done, c.(free := c.free + [x]))
  {
    hide Texts, Plains, Rows;
    TextsAppend(s.cur.value.free, Some(x));
    assert Somes(c.free) + [Some(x)] == Somes(c.free + [x]);
  }

  lemma BusyComment(s: State, line: nat, done: seq<Content>, c: Content, x: string)
    requires Busy(s, done, c) && IsNote(x)
    ensures Busy(Step(s, line, Comment(INDENT, x)), done, c.(free := c.free + [x]))
  {
    CommaIsPlain();
    hide Busy, Step, Note, Comment, IsPlain;
    CommentStep(s, line, INDENT, x);
    BusyNote(s, done, c, x);
  }

  lemma HeadStep(s: State, line: nat, c: Content)
    requires IsContent(c) && s.cur == None
    ensures Step(s, line, HeadLine(c)) == Outside(s, line, HeadCode(c), c.trail)
  {
    hide Step, Outside, Inside, CutLine, Strip, HeadLine, HeadCode, IsContent;
    var pad := if c.trail == None then "" else "  ";
    CutHead(c);
    CodeShape(c);
    StripPadded("", HeadCode(c), pad);
    AppendNothing(HeadCode(c));
    StepCode(s, line, HeadLine(c), Cut(HeadCode(c) + pad, c.trail, false), HeadCode(c));
  }

  lemma RowStep(s: State, line: nat, r: Row)
    requires IsRow(r) && s.cur != None
    ensures Step(s, line, RowLine(r)) == Inside(s, line, RowCode(r), r.trail)
  {
    hide Step, Outside, Inside, CutLine, Strip, RowLine, RowCode, IsRow;
    var pad := if r.trail == None then "" else "  ";
    CutRow(r);
    RowCodeShape(r);
    StripPadded(INDENT, RowCode(r), pad);
    Assoc(INDENT, RowCode(r), pad);
    StepCode(s, line, RowLine(r), Cut(INDENT + (RowCode(r) + pad), r.trail, false), RowCode(r));
  }

  lemma CloseStep(s: State, line: nat, x: string)
    requires s.cur != None && x == "}"
    ensures Step(s, line, x) == Inside(s, line, x, None)
  {
    hide Step, Outside, Inside, CutLine, Strip;
    CutClose();
    StepCode(s, line, x, Cut(x, None, false), x);
  }

  lemma CutClose()
    ensures CutLine("}", false, false) == Cut("}", None, false) && Strip("}") == "}"
  {
    CutPlain("}", "");
    assert "}" + "" == "}";
    StripTrimmed("}");
  }

  /** A block whose head reads without a complaint. */
  lemma OutsideHead(s: State, line: nat, code: string, trail: Option<string>, h: Head)
    requires ParseHead(code) == Some(h)
    ensures Outside(s, line, code, trail) == OpenBlock(s, h, line, trail)
  {
    hide ParseHead, OpenBlock;
  }

  lemma OpenRead(s: State, line: nat, done: seq<Content>, c: Content, h: Head)
    requires Idle(s, done, c.lead) && IsTrail(c.trail) && (c.arg == None || c.arg.value != "")
    requires h.name == c.name && h.spaced && (h.arg == None <==> c.arg == None)
    requires h.arg != None ==> ParseString(h.arg.value) == Read(c.arg, [])
    ensures Busy(OpenBlock(s, h, line, c.trail), done, Opened(c))
  {
    hide ParseString, Plains;
  }

  lemma HeadRead(s: State, line: nat, done: seq<Content>, c: Content)
    requires Idle(s, done, c.lead) && IsContent(c)
    ensures Busy(Step(s, line, HeadLine(c)), done, Opened(c))
  {
    assert s.cur == None && IsTrail(c.trail) && (c.arg != None ==> c.arg.value != "" && NoControl(c.arg.value));
    hide Idle, Busy, Step, Outside, OpenBlock, IsContent, HeadLine, HeadCode, ParseHead, ParseString, CanonStr, Opened;
    var h := Head(c.name, if c.arg == None then None else Some(CanonStr(c.arg.value)), true);
    HeadStep(s, line, c);
    ParseHeadCode(c);
    OutsideHead(s, line, HeadCode(c), c.trail, h);
    if c.arg != None {
      ParseCanonStr(c.arg.value);
    }
    OpenRead(s, line, done, c, h);
  }

  lemma {:induction false} CommentsSomes(xs: seq<string>)
    ensures Comments(Somes(xs)) == |xs|
  {
    if xs != [] {
      CommentsSomes(xs[..|xs| - 1]);
      assert Somes(xs)[..|xs| - 1] == Somes(xs[..|xs| - 1]);
    }
  }

  /** A field takes all the comments that wait. */
  lemma AddFieldTakes(b: Block, r: Row)
    requires b.free == Somes(r.lead) && IsTrail(r.trail)
    ensures AddField(b, r.key, Some(r.value), r.trail)
         == b.(free := [], fields := b.fields + [Field(r.key, Some(r.value), r.trail, r.lead)])
  {
    CommentsSomes(r.lead);
    TextsSomes(r.lead);
    assert b.free[..0] == [] && b.free[0..] == b.free;
  }

  lemma {:induction false} TextsSomes(xs: seq<string>)
    ensures Texts(Somes(xs)) == xs
  {
    if xs != [] {
      TextsSomes(xs[1..]);
      assert Somes(xs)[1..] == Somes(xs[1..]);
    }
  }

  lemma RowsAppend(fs: seq<Field>, r: Row)
    ensures Rows(fs + [Field(r.key, Some(r.value), r.trail, r.lead)]) == Rows(fs) + [r]
  {
    var f := Field(r.key, Some(r.value), r.trail, r.lead);
    assert (fs + [f])[..|fs|] == fs;
  }

  /** A field that reads without a complaint. */
  lemma InsideField(s: State, line: nat, code: string, trail: Option<string>, key: string, raw: string, v: Value)
    requires s.cur != None && !s.skipping && code != "}"
    requires ParsePair(code) == Some(Pair(key, raw)) && ParseValue(raw) == Read(Some(v), [])
    ensures Inside(s, line, code, trail) == s.(cur := Some(AddField(s.cur.value, key, Some(v), trail)))
  {
    hide ParsePair, ParseValue, AddField, Balance;
    ReportNothing(s, line);
  }

  lemma ReportNothing(s: State, line: nat)
    ensures Report(s, line, []) == s
  {
  }

  lemma BusyField(s: State, done: seq<Content>, c: Content, r: Row)
    requires Busy(s, done, c) && IsTrail(r.trail) && c.free == r.lead
    ensures
      var b := AddField(s.cur.value, r.key, Some(r.value), r.trail);
      Busy(s.(cur := Some(b)), done, c.(free := [], rows := c.rows + [r]))
  {
    AddFieldTakes(s.cur.value, r);
    RowsAppend(s.cur.value.fields, r);
    assert Texts([]) == [] && Somes([]) == [];
    hide AddField, Rows, Texts, Plains;
  }

  lemma RowRead(s: State, line: nat, done: seq<Content>, c: Content, r: Row)
    requires Busy(s, done, c) && IsRow(r) && c.free == r.lead
    ensures Busy(Step(s, line, RowLine(r)), done, c.(free := [], rows := c.rows + [r]))
  {
    assert s.cur != None && !s.skipping && IsTrail(r.trail) && IsValue(r.value);
    hide Busy, Step, Inside, IsRow, RowLine, RowCode, ParsePair, ParseValue, CanonValue, AddField, IsValue;
    RowStep(s, line, r);
    RowCodeShape(r);
    ParseRowCode(r);
    ParseCanonValue(r.value);
    InsideField(s, line, RowCode(r), r.trail, r.key, CanonValue(r.value), r.value);
    BusyField(s, done, c, r);
  }

  lemma BusyClose(s: State, line: nat, done: seq<Content>, c: Content, x: string)
    requires Busy(s, done, c) && x == "}"
    ensures Idle(Step(s, line, x), done + [c], [])
  {
    CloseStep(s, line, x);
    PlainsAppend(s.blocks, s.cur.value);
  }

  /** The parser as a reader. */
  function Lines(): Reader<State> { Reader(Step, Idle, Busy) }

  lemma StepIsSound()
    ensures Sound(Lines())
  {
    hide Idle, Busy, Step;
    forall s: State, n: nat, done, lead, x | Idle(s, done, lead) && x == "" ensures Idle(Step(s, n, x), done, lead) {
      IdleEmpty(s, n, done, lead, x);
    }
    forall s: State, n: nat, done, lead, x | Idle(s, done, lead) && IsNote(x)
      ensures Idle(Step(s, n, Comment("", x)), done, lead + [x])
    {
      IdleComment(s, n, done, lead, x);
    }
    forall s: State, n: nat, done, c: Content | Idle(s, done, c.lead) && IsContent(c)
      ensures Busy(Step(s, n, HeadLine(c)), done, Opened(c))
    {
      HeadRead(s, n, done, c);
    }
    forall s: State, n: nat, done, c: Content, x | Busy(s, done, c) && IsNote(x)
      ensures Busy(Step(s, n, Comment(INDENT, x)), done, c.(free := c.free + [x]))
    {
      BusyComment(s, n, done, c, x);
    }
    forall s: State, n: nat, done, c: Content, row | Busy(s, done, c) && IsRow(row) && c.free == row.lead
      ensures Busy(Step(s, n, RowLine(row)), done, c.(free := [], rows := c.rows + [row]))
    {
      RowRead(s, n, done, c, row);
    }
    forall s: State, n: nat, done, c, x | Busy(s, done, c) && x == "}" ensures Idle(Step(s, n, x), done + [c], []) {
      BusyClose(s, n, done, c, x);
    }
  }

  // ---------- No line holds a line break ----------

  lemma OneLineBoth(a: string, b: string)
    requires OneLine(a) && OneLine(b)
    ensures OneLine(a + b)
  {
  }

  predicate AllLines(xs: seq<string>) { forall i :: 0 <= i < |xs| ==> OneLine(xs[i]) }

  lemma AllLinesBoth(a: seq<string>, b: seq<string>)
    requires AllLines(a) && AllLines(b)
    ensures AllLines(a + b)
  {
    hide OneLine;
  }

  lemma AllLinesOne(x: string)
    requires OneLine(x)
    ensures AllLines([x])
  {
    hide OneLine;
  }

  lemma CommentBreak(pad: string, x: string)
    requires OneLine(pad) && IsNote(x)
    ensures OneLine(Comment(pad, x))
  {
    OneLineBoth(" ", x);
    OneLineBoth("//", " " + x);
    OneLineBoth(pad, "//" + (" " + x));
  }

  lemma CommentsBreak(pad: string, xs: seq<string>)
    requires OneLine(pad) && AllNotes(xs)
    ensures AllLines(CommentLines(pad, xs))
  {
    hide OneLine, IsNote, Comment;
    forall i | 0 <= i < |xs| ensures OneLine(CommentLines(pad, xs)[i]) {
      CommentBreak(pad, xs[i]);
    }
  }

  lemma TrailBreak(code: string, t: Option<string>)
    requires OneLine(code) && IsTrail(t)
    ensures OneLine(code + Trail(t))
  {
    assert OneLine("  ") && OneLine("");
    hide OneLine, IsNote, Comment;
    if t != None {
      CommentBreak("  ", t.value);
    }
    OneLineBoth(code, Trail(t));
  }

  lemma RowBreak(row: Row)
    requires IsRow(row)
    ensures AllLines(RowBlock(row))
  {
    assert OneLine(INDENT) && IsTrail(row.trail) && AllNotes(row.lead);
    hide OneLine, IsRow, AllLines, AllNotes, RowCode, CommentLines, Trail, IsTrail;
    RowCodeShape(row);
    TrailBreak(RowCode(row), row.trail);
    OneLineBoth(INDENT, RowCode(row) + Trail(row.trail));
    CommentsBreak(INDENT, row.lead);
    AllLinesOne(RowLine(row));
    AllLinesBoth(CommentLines(INDENT, row.lead), [RowLine(row)]);
  }

  lemma {:induction false} RowsBreak(rows: seq<Row>)
    requires forall i :: 0 <= i < |rows| ==> IsRow(rows[i])
    ensures AllLines(RowLines(rows))
  {
    if rows != [] {
      assert RowLines(rows) == RowBlock(rows[0]) + RowLines(rows[1..]);
      hide IsRow, AllLines, RowBlock, RowLines;
      RowBreak(rows[0]);
      RowsBreak(rows[1..]);
      AllLinesBoth(RowBlock(rows[0]), RowLines(rows[1..]));
    }
  }

  lemma HeadBreak(c: Content)
    requires IsContent(c)
    ensures AllLines(HeadBlock(c))
  {
    assert OneLine("") && IsTrail(c.trail) && AllNotes(c.lead);
    hide OneLine, IsContent, AllLines, AllNotes, HeadCode, CommentLines, Trail, IsTrail;
    CodeShape(c);
    TrailBreak(HeadCode(c), c.trail);
    CommentsBreak("", c.lead);
    AllLinesOne(HeadLine(c));
    AllLinesBoth(CommentLines("", c.lead), [HeadLine(c)]);
  }

  lemma EndBreak(free: seq<string>)
    requires AllNotes(free)
    ensures AllLines(EndBlock(free))
  {
    assert OneLine(INDENT) && OneLine("}");
    hide OneLine, AllLines, AllNotes, CommentLines;
    CommentsBreak(INDENT, free);
    AllLinesOne("}");
    AllLinesBoth(CommentLines(INDENT, free), ["}"]);
  }

  lemma BlockBreak(c: Content)
    requires IsContent(c)
    ensures AllLines(BlockLines(c))
  {
    assert AllNotes(c.free) && forall i :: 0 <= i < |c.rows| ==> IsRow(c.rows[i]);
    hide IsContent, IsRow, AllNotes, AllLines, HeadBlock, RowLines, EndBlock, BlockLines;
    BlockParts(c);
    HeadBreak(c);
    RowsBreak(c.rows);
    EndBreak(c.free);
    AllLinesBoth(HeadBlock(c), RowLines(c.rows));
    AllLinesBoth(HeadBlock(c) + RowLines(c.rows), EndBlock(c.free));
  }

  lemma {:induction false} BodyBreak(cs: seq<Content>)
    requires forall i :: 0 <= i < |cs| ==> IsContent(cs[i])
    ensures AllLines(BodyLines(cs))
  {
    assert OneLine("");
    AllLinesOne("");
    hide IsContent, AllLines, BlockLines;
    if cs != [] {
      BlockBreak(cs[0]);
      if |cs| > 1 {
        BodyBreak(cs[1..]);
        AllLinesBoth(BlockLines(cs[0]), [""]);
        AllLinesBoth(BlockLines(cs[0]) + [""], BodyLines(cs[1..]));
      }
    }
  }

  lemma DocBreak(cs: seq<Content>, tail: seq<string>)
    requires (forall i :: 0 <= i < |cs| ==> IsContent(cs[i])) && AllNotes(tail)
    ensures AllLines(DocLines(cs, tail)) && DocLines(cs, tail) != []
  {
    assert OneLine("");
    AllLinesOne("");
    BodyBreak(cs);
    CommentsBreak("", tail);
    hide IsContent, AllLines, BodyLines, CommentLines, AllNotes, OneLine;
    AllLinesBoth([""], CommentLines("", tail));
    DocParts(cs, tail);
    if tail != [] {
      AllLinesBoth(BodyLines(cs), TailLines(tail));
    }
    AppendNothing(BodyLines(cs));
    AllLinesBoth(BodyLines(cs) + TailLines(tail), [""]);
  }

  /** Canonical text, parsed: no diagnostics, and the same content. */
  lemma ParseDoc(cs: seq<Content>, tail: seq<string>)
    requires (forall i :: 0 <= i < |cs| ==> IsContent(cs[i])) && AllNotes(tail)
    ensures var p := Parse(Join(DocLines(cs, tail), "\n"));
      p.diags == [] && Plains(p.blocks) == cs && p.tail == tail
  {
    hide IsContent, AllNotes, DocLines, Join, Split, Step, Sound, Plains, Plain;
    var lines := DocLines(cs, tail);
    DocBreak(cs, tail);
    SplitJoin(lines, '\n');
    StepIsSound();
    IdleDoc(Lines(), Start(), 1, cs, tail);
  }

  // ---------- The canonical form ----------

  lemma NormalShape(schema: Schema, c: Content)
    requires IsContent(c)
    ensures IsContent(Normal(schema, c))
  {
    var rows := NormalRows(schema, c.name, c.rows);
    forall i | 0 <= i < |rows| ensures IsRow(rows[i]) {
      var v := c.rows[i].value;
      assert IsRow(c.rows[i]);
      if v.VList? {
        SortedItems(v.xs);
      }
    }
    RowsIn(rows, Sort(rows, RowOrder(schema, c.name)), RowOrder(schema, c.name));
  }

  lemma RowsIn(rows: seq<Row>, out: seq<Row>, lt: (Row, Row) -> bool)
    requires out == Sort(rows, lt) && forall i :: 0 <= i < |rows| ==> IsRow(rows[i])
    ensures forall i :: 0 <= i < |out| ==> IsRow(out[i])
  {
    SortPart(rows, lt);
    forall i | 0 <= i < |out| ensures IsRow(out[i]) {
      assert out[i] in rows;
    }
  }

  lemma CanonicalShape(schema: Schema, cs: seq<Content>)
    requires forall i :: 0 <= i < |cs| ==> IsContent(cs[i])
    ensures forall i :: 0 <= i < |Canonical(schema, cs)| ==> IsContent(Canonical(schema, cs)[i])
  {
    var ns := Normals(schema, cs);
    forall i | 0 <= i < |cs| ensures IsContent(ns[i]) {
      NormalShape(schema, cs[i]);
    }
    SortPart(ns, BlockOrder(schema));
    var out := Canonical(schema, cs);
    forall i | 0 <= i < |out| ensures IsContent(out[i]) {
      assert out[i] in ns;
    }
  }

  predicate IsNormalRow(schema: Schema, name: string, r: Row) {
    r.value.VList? && schema.sorted(name, r.key) ==> Sorted(r.value.xs, Before)
  }

  predicate IsNormal(schema: Schema, c: Content) {
    && (forall i :: 0 <= i < |c.rows| ==> IsNormalRow(schema, c.name, c.rows[i]))
    && Sorted(c.rows, RowOrder(schema, c.name))
  }

  lemma NormalIsNormal(schema: Schema, c: Content)
    ensures IsNormal(schema, Normal(schema, c))
  {
    OrdersAreStrict(schema, c.name);
    var rows := NormalRows(schema, c.name, c.rows);
    forall i | 0 <= i < |rows| ensures IsNormalRow(schema, c.name, rows[i]) {
      var v := c.rows[i].value;
      if v.VList? {
        SortSorted(v.xs, Before);
      }
    }
    SortSorted(rows, RowOrder(schema, c.name));
    SortPart(rows, RowOrder(schema, c.name));
    var out := Normal(schema, c).rows;
    forall i | 0 <= i < |out| ensures IsNormalRow(schema, c.name, out[i]) {
      assert out[i] in rows;
    }
  }

  lemma NormalStays(schema: Schema, c: Content)
    requires IsNormal(schema, c)
    ensures Normal(schema, c) == c
  {
    forall i | 0 <= i < |c.rows| ensures NormalRows(schema, c.name, c.rows)[i] == c.rows[i] {
      var r := c.rows[i];
      assert IsNormalRow(schema, c.name, r);
      if r.value.VList? && schema.sorted(c.name, r.key) {
        SortStays(r.value.xs, Before);
      }
    }
    assert NormalRows(schema, c.name, c.rows) == c.rows;
    SortStays(c.rows, RowOrder(schema, c.name));
  }

  /** Putting into canonical form twice is doing it once. */
  lemma CanonicalStays(schema: Schema, cs: seq<Content>)
    ensures Canonical(schema, Canonical(schema, cs)) == Canonical(schema, cs)
  {
    var ns, lt := Normals(schema, cs), BlockOrder(schema);
    var out := Sort(ns, lt);
    OrdersAreStrict(schema, "");
    SortSorted(ns, lt);
    SortPart(ns, lt);
    forall c | c in out ensures Normal(schema, c) == c {
      var i :| 0 <= i < |cs| && c == Normal(schema, cs[i]);
      NormalIsNormal(schema, cs[i]);
      NormalStays(schema, c);
    }
    assert Normals(schema, out) == out;
    SortStays(out, lt);
  }

  // ---------- The fixed point ----------

  /** For every text and schema: the rendering of its parse reads back without a
      diagnostic, to the canonical form of the same content and the same closing
      comments, and renders to itself. */
  lemma FormatIsFixedPoint(schema: Schema, text: string)
    ensures
      var p := Parse(text);
      var again := Parse(Render(schema, p));
      && again.diags == [] && again.tail == p.tail
      && Plains(again.blocks) == Canonical(schema, Plains(p.blocks))
      && Render(schema, again) == Render(schema, p)
  {
    var p := Parse(text);
    var cs := Plains(p.blocks);
    ParseShape(text);
    CanonicalShape(schema, cs);
    ParseDoc(Canonical(schema, cs), p.tail);
    CanonicalStays(schema, cs);
  }

  /** Nothing is lost or made up: the blocks rendered are the blocks read, each with
      its rows in another order, and lists only where the schema calls them sets. */
  lemma CanonicalKeeps(schema: Schema, cs: seq<Content>)
    ensures multiset(Canonical(schema, cs)) == multiset(Normals(schema, cs)) && |Canonical(schema, cs)| == |cs|
    ensures forall i :: 0 <= i < |cs| ==>
      multiset(Normal(schema, cs[i]).rows) == multiset(NormalRows(schema, cs[i].name, cs[i].rows))
    ensures forall xs, set_ :: var v := NormalValue(VList(xs), set_); v.VList? && multiset(v.xs) == multiset(xs)
  {
    SortKeeps(Normals(schema, cs), BlockOrder(schema));
    forall i | 0 <= i < |cs|
      ensures multiset(Normal(schema, cs[i]).rows) == multiset(NormalRows(schema, cs[i].name, cs[i].rows))
    {
      SortKeeps(NormalRows(schema, cs[i].name, cs[i].rows), RowOrder(schema, cs[i].name));
    }
    forall xs, set_ ensures var v := NormalValue(VList(xs), set_); v.VList? && multiset(v.xs) == multiset(xs) {
      SortKeeps(xs, Before);
    }
  }
}
