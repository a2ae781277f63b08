/** Import statements as the source formatter finds them among the tokens of a file.
    A source is a list of pieces: tokens, and between them blanks, comments and line
    breaks. Reading keeps every piece, so that a statement prints as it was. */
module UseSyntax {
  import opened Options

  datatype Piece =
    | UseKw
    | Word(s: string)
    | Dot
    | LBrace
    | RBrace
    | Comma
    | Token(s: string)     // any other token
    | Break                // one line break
    | Blank(s: string)     // white space within a line
    | Note(s: string)      // a comment, up to the end of its line

  type Pieces = seq<Piece>

  predicate IsTrivia(p: Piece) { p.Break? || p.Blank? || p.Note? }

  predicate Trivia(ps: Pieces) { forall i :: 0 <= i < |ps| ==> IsTrivia(ps[i]) }

  /** Trivia without a line break: the lexer gives no newline token for it. */
  predicate Inline(ps: Pieces) { Trivia(ps) && Break !in ps }

  function Lead(ps: Pieces): (n: nat)
    ensures n <= |ps| && Trivia(ps[..n]) && (n < |ps| ==> !IsTrivia(ps[n]))
  {
    if ps != [] && IsTrivia(ps[0]) then
      assert forall n: nat :: n <= |ps[1..]| ==> ps[..n + 1] == [ps[0]] + ps[1..][..n];
      1 + Lead(ps[1..])
    else 0
  }

  /** A word that names something. */
  predicate Name(p: Piece) { p.Word? && p.s != "as" }

  // ---------- Statements ----------

  /** A further part of a path: its dot, with what stands before and behind that. */
  datatype Seg = Seg(before: Pieces, behind: Pieces, name: Piece)

  /** A further word of an item. */
  datatype More = More(gap: Pieces, word: Piece)

  datatype Item = Item(first: Piece, more: seq<More>)

  /** An item of a group, with what stands before and behind it. */
  datatype Entry = Entry(lead: Pieces, item: Item, trail: Pieces)

  /** `trailing` says that a comma follows the last entry; `end` stands before the
      closing brace when no entry does. */
  datatype Group = Group(before: Pieces, behind: Pieces, entries: seq<Entry>, trailing: bool, end: Pieces)

  datatype Alias = Alias(gap: Pieces, behind: Pieces, name: Piece)

  datatype Stmt = Stmt(gap: Pieces, first: Piece, segs: seq<Seg>, group: Option<Group>, alias: Option<Alias>)

  // ---------- Printing ----------

  function PrintSegs(segs: seq<Seg>): Pieces {
    if segs == [] then []
    else segs[0].before + ([Dot] + (segs[0].behind + ([segs[0].name] + PrintSegs(segs[1..]))))
  }

  function PrintMore(more: seq<More>): Pieces {
    if more == [] then [] else more[0].gap + ([more[0].word] + PrintMore(more[1..]))
  }

  function PrintItem(item: Item): Pieces { [item.first] + PrintMore(item.more) }

  /** The entries of a group and its closing brace. */
  function PrintEntries(es: seq<Entry>, trailing: bool, end: Pieces): Pieces {
    if es == [] then end + [RBrace]
    else
      es[0].lead + (PrintItem(es[0].item) + (es[0].trail +
        (if |es| > 1 || trailing then [Comma] + PrintEntries(es[1..], trailing, end) else [RBrace])))
  }

  function PrintGroup(g: Option<Group>): Pieces {
    if g == None then []
    else
      var g := g.value;
      g.before + ([Dot] + (g.behind + ([LBrace] + PrintEntries(g.entries, g.trailing, g.end))))
  }

  function PrintAlias(a: Option<Alias>): Pieces {
    if a == None then [] else a.value.gap + ([Word("as")] + (a.value.behind + [a.value.name]))
  }

  function PrintPath(s: Stmt): Pieces { [s.first] + PrintSegs(s.segs) }

  function Print(s: Stmt): Pieces {
    [UseKw] + (s.gap + (PrintPath(s) + (PrintGroup(s.group) + PrintAlias(s.alias))))
  }

  // ---------- What can be read ----------

  predicate IsSeg(g: Seg) { Trivia(g.before) && Inline(g.behind) && Name(g.name) }

  predicate IsItem(item: Item) {
    Name(item.first) && forall i :: 0 <= i < |item.more| ==> Trivia(item.more[i].gap) && item.more[i].word.Word?
  }

  predicate IsEntry(e: Entry) { Trivia(e.lead) && IsItem(e.item) && Trivia(e.trail) }

  predicate IsGroup(g: Group) {
    && Trivia(g.before) && Inline(g.behind) && Trivia(g.end)
    && (forall i :: 0 <= i < |g.entries| ==> IsEntry(g.entries[i]))
    && (g.entries == [] ==> !g.trailing)
    && (g.entries != [] && !g.trailing ==> g.end == [])
  }

  predicate IsAlias(a: Alias) { Inline(a.gap) && Inline(a.behind) && Name(a.name) }

  predicate IsStmt(s: Stmt) {
    && Inline(s.gap) && Name(s.first)
    && (forall i :: 0 <= i < |s.segs| ==> IsSeg(s.segs[i]))
    && (s.group == None || IsGroup(s.group.value))
    && (s.alias == None || IsAlias(s.alias.value))
  }

  // ---------- Reading ----------

  datatype Read<T> = Fail | Ok(value: T, rest: Pieces)

  function AddEntry(e: Entry, r: Read<(seq<Entry>, bool, Pieces)>): Read<(seq<Entry>, bool, Pieces)> {
    if r.Fail? then Fail else Ok(([e] + r.value.0, r.value.1, r.value.2), r.rest)
  }

  function AddGroup(before: Pieces, behind: Pieces, r: Read<(seq<Entry>, bool, Pieces)>)
    : Read<(seq<Seg>, Option<Group>)>
  {
    if r.Fail? then Fail else Ok(([], Some(Group(before, behind, r.value.0, r.value.1, r.value.2))), r.rest)
  }

  function AddSeg(s: Seg, r: Read<(seq<Seg>, Option<Group>)>): Read<(seq<Seg>, Option<Group>)> {
    if r.Fail? then Fail else Ok(([s] + r.value.0, r.value.1), r.rest)
  }

  function ReadMore(ps: Pieces): (r: (seq<More>, Pieces))
    ensures |r.1| <= |ps|
    decreases |ps|
  {
    var n := Lead(ps);
    if n < |ps| && ps[n].Word? then
      var (more, rest) := ReadMore(ps[n + 1..]);
      ([More(ps[..n], ps[n])] + more, rest)
    else ([], ps)
  }

  /** The entries of a group, whose brace is behind; `any` says that there is one
      already. */
  function ReadEntries(ps: Pieces, any: bool): (r: Read<(seq<Entry>, bool, Pieces)>)
    ensures r.Ok? ==> |r.rest| < |ps|
    decreases |ps|
  {
    var n := Lead(ps);
    if n == |ps| then Fail
    else if ps[n] == RBrace then Ok(([], any, ps[..n]), ps[n + 1..])
    else if !Name(ps[n]) then Fail
    else
      var (more, after) := ReadMore(ps[n + 1..]);
      var k := Lead(after);
      var e := Entry(ps[..n], Item(ps[n], more), after[..k]);
      if k == |after| then Fail
      else if after[k] == RBrace then Ok(([e], false, []), after[k + 1..])
      else if after[k] != Comma then Fail
      else
        AddEntry(e, ReadEntries(after[k + 1..], true))
  }

  /** The rest of a path, and the group behind it, if there is one. */
  function ReadSegs(ps: Pieces): (r: Read<(seq<Seg>, Option<Group>)>)
    ensures r.Ok? ==> |r.rest| <= |ps|
    decreases |ps|
  {
    var n := Lead(ps);
    if n == |ps| || ps[n] != Dot then Ok(([], None), ps)
    else
      var after := ps[n + 1..];
      var k := Lead(after);
      if k == |after| || Break in after[..k] then Fail
      else if after[k] == LBrace then
        AddGroup(ps[..n], after[..k], ReadEntries(after[k + 1..], false))
      else if !Name(after[k]) then Fail
      else
        AddSeg(Seg(ps[..n], after[..k], after[k]), ReadSegs(after[k + 1..]))
  }

  /** Whether `as` comes next, on the same line. */
  predicate AsNext(ps: Pieces) {
    var n := Lead(ps);
    n < |ps| && ps[n] == Word("as") && Break !in ps[..n]
  }

  function ReadAlias(ps: Pieces): (r: Read<Option<Alias>>)
    ensures r.Ok? ==> |r.rest| <= |ps|
  {
    if !AsNext(ps) then Ok(None, ps)
    else
      var n := Lead(ps);
      var after := ps[n + 1..];
      var k := Lead(after);
      if k == |after| || Break in after[..k] || !Name(after[k]) then Fail
      else Ok(Some(Alias(ps[..n], after[..k], after[k])), after[k + 1..])
  }

  /** One statement; `ps` starts behind its `use`. */
  function ReadStmt(ps: Pieces): (r: Read<Stmt>)
    ensures r.Ok? ==> |r.rest| < |ps|
  {
    var n := Lead(ps);
    if n == |ps| || Break in ps[..n] || !Name(ps[n]) then Fail
    else
      match ReadSegs(ps[n + 1..])
      case Fail => Fail
      case Ok(r, rest) =>
        match ReadAlias(rest)
        case Fail => Fail
        case Ok(a, rest') => Ok(Stmt(ps[..n], ps[n], r.0, r.1, a), rest')
  }
}
