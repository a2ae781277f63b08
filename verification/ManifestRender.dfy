/** The canonical text of a manifest: blocks in the schema's order, fields in their
    block's order, lists sorted where the schema says so. */
module ManifestRender {
  import opened Options
  import opened Text
  import opened Manifest
  import opened Sorting

  /** Where a block and a key come in the canonical order, and which lists are sets. */
  datatype Schema = Schema(order: string -> int, pos: (string, string) -> int, sorted: (string, string) -> bool)

  /** What of a block is rendered. */
  datatype Row = Row(key: string, value: Value, trail: Option<string>, lead: seq<string>)

  datatype Content = Content(
    name: string, arg: Option<string>, trail: Option<string>, lead: seq<string>, rows: seq<Row>, free: seq<string>)

  /** Fields without a value are not rendered, nor is an empty argument. */
  function Rows(fields: seq<Field>): seq<Row> {
    if fields == [] then []
    else
      var f := fields[|fields| - 1];
      Rows(fields[..|fields| - 1])
      + if f.value == None then [] else [Row(f.key, f.value.value, f.trail, f.lead)]
  }

  function Plain(b: Block): Content {
    Content(b.name, NonEmpty(b.arg), b.trail, Texts(b.lead), Rows(b.fields), Texts(b.free))
  }

  function Plains(blocks: seq<Block>): (cs: seq<Content>)
    ensures |cs| == |blocks| && forall i :: 0 <= i < |blocks| ==> cs[i] == Plain(blocks[i])
  {
    seq(|blocks|, i requires 0 <= i < |blocks| => Plain(blocks[i]))
  }

  // ---------- Canonical order ----------

  function Arg(c: Content): string { if c.arg == None then "" else c.arg.value }

  function BlockOrder(schema: Schema): (Content, Content) -> bool {
    (a: Content, b: Content) =>
      schema.order(a.name) < schema.order(b.name)
      || (schema.order(a.name) == schema.order(b.name) && Before(Arg(a), Arg(b)))
  }

  function RowOrder(schema: Schema, name: string): (Row, Row) -> bool {
    (a: Row, b: Row) => schema.pos(name, a.key) < schema.pos(name, b.key)
  }

  function NormalValue(v: Value, set_: bool): Value {
    if v.VList? && set_ then VList(Sort(v.xs, Before)) else v
  }

  function NormalRow(schema: Schema, name: string, r: Row): Row {
    r.(value := NormalValue(r.value, schema.sorted(name, r.key)))
  }

  function NormalRows(schema: Schema, name: string, rows: seq<Row>): (r: seq<Row>)
    ensures |r| == |rows| && forall i :: 0 <= i < |rows| ==> r[i] == NormalRow(schema, name, rows[i])
  {
    seq(|rows|, i requires 0 <= i < |rows| => NormalRow(schema, name, rows[i]))
  }

  function Normal(schema: Schema, c: Content): Content {
    c.(rows := Sort(NormalRows(schema, c.name, c.rows), RowOrder(schema, c.name)))
  }

  function Normals(schema: Schema, cs: seq<Content>): (r: seq<Content>)
    ensures |r| == |cs| && forall i :: 0 <= i < |cs| ==> r[i] == Normal(schema, cs[i])
  {
    seq(|cs|, i requires 0 <= i < |cs| => Normal(schema, cs[i]))
  }

  function Canonical(schema: Schema, cs: seq<Content>): seq<Content> {
    Sort(Normals(schema, cs), BlockOrder(schema))
  }

  // ---------- Text ----------

  function Escape(s: string): string {
    if s == "" then ""
    else (if s[0] == '"' || s[0] == '\\' then ['\\', s[0]] else [s[0]]) + Escape(s[1..])
  }

  function CanonStr(s: string): string { "\"" + Escape(s) + "\"" }

  function Decimal(n: nat): string {
    (if n < 10 then "" else Decimal(n / 10)) + [('0' as int + n % 10) as char]
  }

  function CanonInt(n: int): string { if n < 0 then "-" + Decimal(-n) else Decimal(n) }

  function CanonStrs(xs: seq<string>): (r: seq<string>)
    ensures |r| == |xs|
  {
    seq(|xs|, i requires 0 <= i < |xs| => CanonStr(xs[i]))
  }

  function CanonValue(v: Value): string {
    match v
    case VBool(b) => if b then "true" else "false"
    case VInt(n) => CanonInt(n)
    case VStr(s) => CanonStr(s)
    case VList(xs) => "[" + (if xs == [] then "" else Join(CanonStrs(xs), ", ")) + "]"
  }

  function Comment(pad: string, text: string): string { pad + ("//" + (" " + text)) }

  function CommentLines(pad: string, texts: seq<string>): (lines: seq<string>)
    ensures |lines| == |texts| && forall i :: 0 <= i < |texts| ==> lines[i] == Comment(pad, texts[i])
  {
    seq(|texts|, i requires 0 <= i < |texts| => Comment(pad, texts[i]))
  }

  function Trail(trail: Option<string>): string { if trail == None then "" else Comment("  ", trail.value) }

  const INDENT := "    "

  function RowCode(r: Row): string { r.key + (" = " + CanonValue(r.value)) }

  function RowLine(r: Row): string { INDENT + (RowCode(r) + Trail(r.trail)) }

  function RowLines(rows: seq<Row>): seq<string> {
    if rows == [] then []
    else
      CommentLines(INDENT, rows[0].lead) + [RowLine(rows[0])] + RowLines(rows[1..])
  }

  function HeadCode(c: Content): string {
    c.name + ((if c.arg == None then "" else " " + CanonStr(c.arg.value)) + " {")
  }

  function HeadLine(c: Content): string { HeadCode(c) + Trail(c.trail) }

  function BlockLines(c: Content): seq<string> {
    CommentLines("", c.lead) + [HeadLine(c)] + RowLines(c.rows) + CommentLines(INDENT, c.free) + ["}"]
  }

  /** The blocks with an empty line between them; no block at all is an empty line. */
  function BodyLines(cs: seq<Content>): seq<string> {
    if cs == [] then [""]
    else if |cs| == 1 then BlockLines(cs[0])
    else BlockLines(cs[0]) + [""] + BodyLines(cs[1..])
  }

  function DocLines(cs: seq<Content>, tail: seq<string>): seq<string> {
    BodyLines(cs) + (if tail == [] then [] else [""] + CommentLines("", tail)) + [""]
  }

  /** The canonical text of what a parse found. */
  function Render(schema: Schema, p: Parsed): string {
    Join(DocLines(Canonical(schema, Plains(p.blocks)), p.tail), "\n")
  }
}
