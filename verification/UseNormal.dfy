/** Sorting and wrapping import statements: statements of a run are put in the order of
    their paths, the items of a group in the order of their names, and long groups are
    broken into lines. */
module UseNormal {
  import opened Options
  import opened Sorting
  import opened UseSyntax

  // ---------- Text ----------

  function PieceText(p: Piece): string {
    match p
    case UseKw => "use"
    case Word(s) => s
    case Dot => "."
    case LBrace => "{"
    case RBrace => "}"
    case Comma => ","
    case Token(s) => s
    case Break => "\n"
    case Blank(s) => s
    case Note(s) => s
  }

  function Text(ps: Pieces): string { if ps == [] then "" else PieceText(ps[0]) + Text(ps[1..]) }

  function Count(s: string, c: char): nat {
    if s == "" then 0 else Count(s[1..], c) + if s[0] == c then 1 else 0
  }

  predicate HasNote(ps: Pieces) { exists p :: p in ps && p.Note? }

  // ---------- One statement ----------

  function Key(e: Entry): string { PieceText(e.item.first) }

  function ByKey(): (Entry, Entry) -> bool { (a: Entry, b: Entry) => Before(Key(a), Key(b)) }

  /** Entries with the same space before each and some behind the last. */
  function Laid(es: seq<Entry>, lead: Pieces, last: Pieces): (r: seq<Entry>)
    ensures |r| == |es|
    ensures forall i :: 0 <= i < |es| ==> r[i] == Entry(lead, es[i].item, if i == |es| - 1 then last else [])
  {
    seq(|es|, i requires 0 <= i < |es| => Entry(lead, es[i].item, if i == |es| - 1 then last else []))
  }

  const SPACE: Pieces := [Blank(" ")]
  const LINE: Pieces := [Break, Blank("    ")]
  const COLS := 100

  /** The group on one line. */
  function Flat(s: Stmt, es: seq<Entry>): Stmt {
    Stmt(SPACE, s.first, s.segs, Some(Group([], [], Laid(es, SPACE, SPACE), false, [])), None)
  }

  /** The group with one item a line. */
  function Tall(s: Stmt, es: seq<Entry>, trailing: bool): Stmt {
    var end: Pieces := [Break];
    Stmt(SPACE, s.first, s.segs,
      Some(Group([], [], Laid(es, LINE, if trailing then [] else end), trailing, if trailing then end else [])), None)
  }

  predicate SingleLine(g: Group) { Break !in PrintEntries(g.entries, g.trailing, g.end) }

  /** A statement with a comment in it stays as it is. */
  predicate Frozen(s: Stmt) { HasNote(Print(s)) }

  predicate TooLong(s: Stmt, g: Group) {
    SingleLine(g) && |Text(Print(Flat(s, Sort(g.entries, ByKey()))))| > COLS
  }

  function Tidy(s: Stmt): Stmt {
    if s.group == None || s.group.value.entries == [] || Frozen(s) then s
    else
      var g := s.group.value;
      var es := Sort(g.entries, ByKey());
      if Sorted(g.entries, ByKey()) && !TooLong(s, g) then s
      else if SingleLine(g) && !TooLong(s, g) then Flat(s, es)
      else Tall(s, es, TooLong(s, g) || g.trailing)
  }

  // ---------- A file ----------

  /** A statement and what stands between the one before and it. */
  datatype Unit = Unit(pre: Pieces, stmt: Stmt)

  datatype Doc = Doc(units: seq<Unit>, tail: Pieces)

  /** The pieces before the first `use`. */
  function Plain(ps: Pieces): (n: nat)
    ensures n <= |ps| && UseKw !in ps[..n] && (n < |ps| ==> ps[n] == UseKw)
  {
    if ps != [] && ps[0] != UseKw then
      assert forall n: nat :: n <= |ps[1..]| ==> ps[..n + 1] == [ps[0]] + ps[1..][..n];
      1 + Plain(ps[1..])
    else 0
  }

  function AddUnit(u: Unit, d: Option<Doc>): Option<Doc> {
    if d == None then None else Some(d.value.(units := [u] + d.value.units))
  }

  /** All statements of a file, or nothing if one of them has another form. */
  function ReadDoc(ps: Pieces): Option<Doc>
    decreases |ps|
  {
    var n := Plain(ps);
    if n == |ps| then Some(Doc([], ps))
    else
      var r := ReadStmt(ps[n + 1..]);
      if r.Fail? then None else AddUnit(Unit(ps[..n], r.value), ReadDoc(r.rest))
  }

  function PrintDoc(units: seq<Unit>, tail: Pieces): Pieces {
    if units == [] then tail else units[0].pre + (Print(units[0].stmt) + PrintDoc(units[1..], tail))
  }

  /** A comment or an empty line ends a run. */
  predicate Ends(pre: Pieces) { HasNote(pre) || Count(Text(pre), '\n') > 1 }

  function RunLen(units: seq<Unit>): (n: nat)
    requires units != []
    ensures 1 <= n <= |units|
    ensures forall i :: 1 <= i < n ==> !Ends(units[i].pre)
    ensures n < |units| ==> Ends(units[n].pre)
  {
    if |units| == 1 || Ends(units[1].pre) then 1 else 1 + RunLen(units[1..])
  }

  function PathText(s: Stmt): string { Text(PrintPath(s)) }

  function ByPath(): (Stmt, Stmt) -> bool { (a: Stmt, b: Stmt) => Before(PathText(a), PathText(b)) }

  function Stmts(run: seq<Unit>): (r: seq<Stmt>)
    ensures |r| == |run| && forall i :: 0 <= i < |run| ==> r[i] == run[i].stmt
  {
    seq(|run|, i requires 0 <= i < |run| => run[i].stmt)
  }

  predicate AnyFrozen(ss: seq<Stmt>) { exists i :: 0 <= i < |ss| && Frozen(ss[i]) }

  function Ordered(ss: seq<Stmt>): (r: seq<Stmt>) { if AnyFrozen(ss) then ss else Sort(ss, ByPath()) }

  /** Statements on lines of their own, tidied. */
  function Stacked(pre: Pieces, ss: seq<Stmt>): (r: seq<Unit>)
    ensures |r| == |ss|
    ensures forall i :: 0 <= i < |ss| ==> r[i] == Unit(if i == 0 then pre else [Break], Tidy(ss[i]))
  {
    seq(|ss|, i requires 0 <= i < |ss| => Unit(if i == 0 then pre else [Break], Tidy(ss[i])))
  }

  function SettleRun(run: seq<Unit>): seq<Unit>
    requires run != []
  {
    Stacked(run[0].pre, Ordered(Stmts(run)))
  }

  function Settle(units: seq<Unit>): seq<Unit>
    decreases |units|
  {
    if units == [] then []
    else
      var n := RunLen(units);
      SettleRun(units[..n]) + Settle(units[n..])
  }

  /** The whole pass. A file with a statement of another form is left alone. */
  function Normalize(ps: Pieces): Pieces {
    var d := ReadDoc(ps);
    if d == None then ps else PrintDoc(Settle(d.value.units), d.value.tail)
  }
}
