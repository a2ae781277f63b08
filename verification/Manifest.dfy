/** Reading a package manifest: comments, values, block heads and fields, and the
    line-by-line parser that goes on after an error. Diagnostics are kept by code and
    line. */
module Manifest {
  import opened Options
  import opened Text

  datatype Diag = Diag(code: string, line: nat)

  datatype Value = VBool(b: bool) | VInt(n: int) | VStr(s: string) | VList(xs: seq<string>)

  /** A field; `value` is missing when it could not be read. */
  datatype Field = Field(key: string, value: Option<Value>, trail: Option<string>, lead: seq<string>)

  /** A block. In `lead` and `free` a missing entry is an empty line. */
  datatype Block = Block(
    name: string, arg: Option<string>, line: nat, trail: Option<string>,
    lead: seq<Option<string>>, free: seq<Option<string>>, fields: seq<Field>)

  // ---------- Comments ----------

  /** What one line holds: code and perhaps a comment after `//`, or after `#`; or a
      string that is still open at its end. */
  datatype Cut = Cut(code: string, trail: Option<string>, hash: bool) | Open

  function Cons(c: char, cut: Cut): Cut { if cut.Open? then Open else cut.(code := [c] + cut.code) }

  function CutLine(s: string, inStr: bool, esc: bool): Cut {
    if s == "" then (if inStr then Open else Cut("", None, false))
    else if inStr then
      Cons(s[0], CutLine(s[1..], s[0] != '"' || esc, s[0] == '\\' && !esc))
    else if s[0] == '"' then Cons(s[0], CutLine(s[1..], true, false))
    else if s[0] == '/' && |s| > 1 && s[1] == '/' then Cut("", Some(Strip(s[2..])), false)
    else if s[0] == '#' then Cut("", Some(Strip(s[1..])), true)
    else Cons(s[0], CutLine(s[1..], false, false))
  }

  /** An empty comment is none. */
  function NonEmpty(trail: Option<string>): Option<string> { if trail == Some("") then None else trail }

  // ---------- Strings and values ----------

  datatype Read<T> = Read(value: Option<T>, codes: seq<string>)

  function Bad<T>(code: string): Read<T> { Read(None, [code]) }

  predicate Control(c: char) { c < ' ' }

  /** The text between the quotes, with `\"` and `\\` undone. */
  function Unescape(body: string, esc: bool): Option<string> {
    if body == "" then (if esc then None else Some(""))
    else if esc then
      if body[0] == '"' || body[0] == '\\' then Push(body[0], Unescape(body[1..], false)) else None
    else if body[0] == '\\' then Unescape(body[1..], true)
    else if Control(body[0]) then None
    else Push(body[0], Unescape(body[1..], false))
  }

  function Push(c: char, s: Option<string>): Option<string> { if s == None then None else Some([c] + s.value) }

  predicate Quoted(s: string) { |s| >= 2 && s[0] == '"' && s[|s| - 1] == '"' }

  /** Nothing is reported for what is not quoted at all. */
  function ParseString(s: string): Read<string> {
    if !Quoted(s) then Read(None, [])
    else
      var r := Unescape(s[1..|s| - 1], false);
      if r == None then Bad("E5048") else Read(r, [])
  }

  predicate Digit(c: char) { '0' <= c <= '9' }

  predicate Digits(s: string) { s != "" && forall i :: 0 <= i < |s| ==> Digit(s[i]) }

  /** A natural number without leading zeros, perhaps after a minus sign. */
  predicate IsInt(s: string) {
    if s != "" && s[0] == '-' then IsNat(s[1..]) else IsNat(s)
  }

  predicate IsNat(s: string) { Digits(s) && (s[0] == '0' ==> |s| == 1) }

  function NatOf(s: string): nat
    requires s == "" || Digits(s)
  {
    if s == "" then 0 else NatOf(s[..|s| - 1]) * 10 + (s[|s| - 1] - '0') as nat
  }

  function IntOf(s: string): int
    requires IsInt(s)
  {
    if s[0] == '-' then -(NatOf(s[1..]) as int) else NatOf(s)
  }

  const MAX_INT := 0x7fff_ffff_ffff_ffff

  predicate InI64(n: int) { -MAX_INT - 1 <= n <= MAX_INT }

  function ParseList(parts: seq<string>): Read<seq<string>> {
    if parts == [] then Read(Some([]), [])
    else
      var p := Strip(parts[0]);
      var v := ParseString(p);
      if v.value == None then Read(None, v.codes + if p != "" && p[0] == '"' then [] else ["E5048"])
      else
        var rest := ParseList(parts[1..]);
        Read(if rest.value == None then None else Some([v.value.value] + rest.value.value), v.codes + rest.codes)
  }

  /** A list is cut at every comma, also inside its strings. */
  function ParseItems(body: string): Read<seq<string>> {
    if body == "" then Read(Some([]), [])
    else
      var parts := Split(body, ',');
      if Strip(parts[|parts| - 1]) == "" then Bad("E5048") else ParseList(parts)
  }

  function ParseValue(text: string): Read<Value> {
    var raw := Strip(text);
    if raw != "" && raw[0] == '[' then ParseBrackets(raw) else ParseScalar(raw)
  }

  function ParseBrackets(raw: string): Read<Value>
    requires raw != "" && raw[0] == '['
  {
    if raw[|raw| - 1] != ']' then Bad("E5040")
    else
      var items := ParseItems(Strip(raw[1..|raw| - 1]));
      Read(if items.value == None then None else Some(VList(items.value.value)), items.codes)
  }

  function ParseScalar(raw: string): Read<Value> {
    if raw == "true" || raw == "false" then Read(Some(VBool(raw == "true")), [])
    else if raw == "" then Bad("E5040")
    else if raw[0] == '\'' then Bad("E5048")
    else if raw[0] == '"' then
      var s := ParseString(raw);
      Read(if s.value == None then None else Some(VStr(s.value.value)), s.codes)
    else if IsInt(raw) then
      if InI64(IntOf(raw)) then Read(Some(VInt(IntOf(raw))), []) else Bad("E5048")
    else Bad("E5040")
  }

  // ---------- Heads and fields ----------

  predicate IdentStart(c: char) { 'a' <= c <= 'z' || c == '_' }

  predicate IdentChar(c: char) { IdentStart(c) || Digit(c) }

  predicate Ident(s: string) { s != "" && IdentStart(s[0]) && forall i :: 0 <= i < |s| ==> IdentChar(s[i]) }

  function IdentRun(s: string): (n: nat)
    ensures n <= |s| && forall i :: 0 <= i < n ==> IdentChar(s[i])
  {
    if s != "" && IdentChar(s[0]) then 1 + IdentRun(s[1..]) else 0
  }

  /** The length of the identifier that `s` starts with, if any. */
  function IdentLen(s: string): (n: nat)
    ensures n <= |s| && (n > 0 ==> Ident(s[..n]))
  {
    if s != "" && IdentStart(s[0]) then IdentRun(s) else 0
  }

  /** Past the closing quote of the string whose inside `s` starts with. */
  function StringEnd(s: string): (n: Option<nat>)
    ensures n != None ==> 0 < n.value <= |s|
  {
    if s == "" then None
    else if s[0] == '"' then Some(1)
    else if s[0] == '\\' then (if |s| == 1 then None else Shift(2, StringEnd(s[2..])))
    else Shift(1, StringEnd(s[1..]))
  }

  function Shift(k: nat, n: Option<nat>): Option<nat> { if n == None then None else Some(n.value + k) }

  /** A block head; `spaced` says that a space or tab follows the name. */
  datatype Head = Head(name: string, arg: Option<string>, spaced: bool)

  predicate Opens(s: string) { s != "" && s[0] == '{' && Blank(s[1..]) }

  /** What may follow a block's name, without the space before it. */
  datatype HeadRest = NoArg | WithArg(arg: string)

  function ParseHeadRest(rest: string): Option<HeadRest> {
    if Opens(rest) then Some(NoArg)
    else if rest != "" && rest[0] == '"' then
      var k := StringEnd(rest[1..]);
      if k == None || !Opens(StripLeft(rest[k.value + 1..])) then None else Some(WithArg(rest[..k.value + 1]))
    else None
  }

  function ParseHead(line: string): Option<Head> {
    var n := IdentLen(line);
    if n == 0 then None
    else
      match ParseHeadRest(StripLeft(line[n..]))
      case None => None
      case Some(NoArg) => Some(Head(line[..n], None, true))
      case Some(WithArg(arg)) => Some(Head(line[..n], Some(arg), n < |line| && (line[n] == ' ' || line[n] == '\t')))
  }

  datatype Pair = Pair(key: string, raw: string)

  function ParsePair(line: string): Option<Pair> {
    var n := IdentLen(line);
    if n == 0 then None
    else
      var rest := StripLeft(line[n..]);
      if rest == "" || rest[0] != '=' || Strip(rest[1..]) == "" then None
      else Some(Pair(line[..n], Strip(rest[1..])))
  }

  // ---------- The parser ----------

  /** `lead` collects what stands before the next block; `bal` is the brace balance of
      a construct that is being skipped. */
  datatype State = State(
    blocks: seq<Block>, diags: seq<Diag>, lead: seq<Option<string>>, cur: Option<Block>, skipping: bool, bal: int)

  function Start(): State { State([], [], [], None, false, 0) }

  function Report(s: State, line: nat, codes: seq<string>): State {
    s.(diags := s.diags + seq(|codes|, i requires 0 <= i < |codes| => Diag(codes[i], line)))
  }

  function Count(s: string, c: char): nat {
    if s == "" then 0 else Count(s[1..], c) + if s[0] == c then 1 else 0
  }

  function Balance(s: string): int { Count(s, '{') - Count(s, '}') }

  /** A comment on a line of its own, or an empty line. */
  function Note(s: State, trail: Option<string>): State {
    if s.cur == None then s.(lead := s.lead + [NonEmpty(trail)])
    else s.(cur := Some(s.cur.value.(free := s.cur.value.free + [NonEmpty(trail)])))
  }

  /** How many of the last entries of `free` are comments. */
  function Comments(free: seq<Option<string>>): (n: nat)
    ensures n <= |free| && forall i :: |free| - n <= i < |free| ==> free[i] != None
  {
    if free != [] && free[|free| - 1] != None then 1 + Comments(free[..|free| - 1]) else 0
  }

  function DropEmpty(free: seq<Option<string>>): seq<Option<string>> {
    if free != [] && free[|free| - 1] == None then DropEmpty(free[..|free| - 1]) else free
  }

  /** The comments among the entries. */
  function Texts(notes: seq<Option<string>>): seq<string> {
    if notes == [] then []
    else (if notes[0] == None then [] else [notes[0].value]) + Texts(notes[1..])
  }

  /** A field takes the comments right above it. */
  function AddField(b: Block, key: string, value: Option<Value>, trail: Option<string>): Block {
    var n := Comments(b.free);
    var k := |b.free| - n;
    b.(free := DropEmpty(b.free[..k]), fields := b.fields + [Field(key, value, NonEmpty(trail), Texts(b.free[k..]))])
  }

  /** The key of a field that stands for an unreadable line. */
  const BAD_LINE := "\U{0}"

  function OpenBlock(s: State, h: Head, line: nat, trail: Option<string>): State {
    var arg := if h.arg == None then Read(None, []) else ParseString(h.arg.value);
    var b := Block(h.name, arg.value, line, NonEmpty(trail), s.lead, [], []);
    Report(s, line, (if h.arg == None || h.spaced then [] else ["E5040"]) + arg.codes).(cur := Some(b), lead := [])
  }

  function Skip(s: State, line: nat, code: string): State {
    Report(s, line, ["E5040"]).(skipping := true, bal := Balance(code))
  }

  /** A line with code inside a block. */
  function Inside(s: State, line: nat, code: string, trail: Option<string>): State
    requires s.cur != None
  {
    var b := s.cur.value;
    if s.skipping then s.(bal := s.bal + Balance(code), skipping := s.bal + Balance(code) > 0)
    else if code == "}" then s.(blocks := s.blocks + [b], cur := None)
    else
      match ParsePair(code)
      case Some(p) =>
        var v := ParseValue(p.raw);
        Report(s, line, v.codes).(cur := Some(AddField(b, p.key, v.value, trail)))
      case None =>
        if '{' in code || '}' in code then Skip(s, line, code)
        else
          var bad := Field(BAD_LINE, None, None, []);
          Report(s, line, ["E5040"]).(cur := Some(b.(fields := b.fields + [bad])))
  }

  function Outside(s: State, line: nat, code: string, trail: Option<string>): State {
    match ParseHead(code)
    case Some(h) => OpenBlock(s, h, line, trail)
    case None => Report(s, line, ["E5040"])
  }

  function Step(s: State, line: nat, text: string): State {
    var cut := CutLine(text, false, false);
    if cut.Open? then Report(s, line, ["E5040"])
    else
      var s := if cut.hash then Report(s, line, ["E5042"]) else s;
      var code := Strip(cut.code);
      if code == "" then Note(s, cut.trail)
      else if s.cur != None then Inside(s, line, code, cut.trail)
      else Outside(s, line, code, cut.trail)
  }

  /** One step for each line, which are numbered from `line` on. */
  function Fold<S>(step: (S, nat, string) -> S, s: S, line: nat, lines: seq<string>): S
    decreases |lines|
  {
    if lines == [] then s else Fold(step, step(s, line, lines[0]), line + 1, lines[1..])
  }

  /** The blocks, the diagnostics and the comments after the last block. */
  datatype Parsed = Parsed(blocks: seq<Block>, diags: seq<Diag>, tail: seq<string>)

  function Finish(s: State): Parsed {
    var s' := if s.cur == None then s else Report(s, s.cur.value.line, ["E5040"]);
    Parsed(s'.blocks, s'.diags, Texts(s'.lead))
  }

  function Parse(text: string): Parsed { Finish(Fold(Step, Start(), 1, Split(text, '\n'))) }
}
