/** The reader as it runs: scanning characters and lines, and keeping what it has found
    in fields that change line by line. */
module ManifestReader {
  import opened Options
  import opened Text
  import opened Manifest

  // ---------- Scanning one line ----------

  function Prefixed(code: string, cut: Cut): Cut { if cut.Open? then Open else cut.(code := code + cut.code) }

  lemma OneMore(s: string, i: nat, cut: Cut)
    requires i < |s|
    ensures Prefixed(s[..i], Cons(s[i], cut)) == Prefixed(s[..i + 1], cut)
  {
    if cut.Cut? {
      assert s[..i] + ([s[i]] + cut.code) == s[..i + 1] + cut.code;
    }
  }

  /** Cuts the comment off a line, knowing where strings are. */
  method StripComment(s: string) returns (cut: Cut)
    ensures cut == CutLine(s, false, false)
  {
    var inStr, esc := false, false;
    for i := 0 to |s|
      invariant !inStr ==> !esc
      invariant CutLine(s, false, false) == Prefixed(s[..i], CutLine(s[i..], inStr, esc))
    {
      ghost var after := s[i + 1..];
      assert s[i..][1..] == after;
      if inStr {
        OneMore(s, i, CutLine(after, s[i] != '"' || esc, s[i] == '\\' && !esc));
        if esc {
          esc := false;
        } else if s[i] == '\\' {
          esc := true;
        } else if s[i] == '"' {
          inStr := false;
        }
      } else if s[i] == '"' {
        OneMore(s, i, CutLine(after, true, false));
        inStr := true;
      } else if s[i] == '/' && i + 1 < |s| && s[i + 1] == '/' {
        assert s[i..][2..] == s[i + 2..];
        return Cut(s[..i], Some(Strip(s[i + 2..])), false);
      } else if s[i] == '#' {
        return Cut(s[..i], Some(Strip(s[i + 1..])), true);
      } else {
        OneMore(s, i, CutLine(after, false, false));
      }
    }
    assert s[..|s|] == s;
    cut := if inStr then Open else Cut(s, None, false);
  }

  function Ahead<T>(out: seq<T>, s: Option<seq<T>>): Option<seq<T>> { if s == None then None else Some(out + s.value) }

  lemma Nothing<T>(s: Option<seq<T>>)
    ensures Ahead([], s) == s
  {
    if s.Some? {
      assert [] + s.value == s.value;
    }
  }

  lemma PushOne(out: string, c: char, rest: Option<string>)
    ensures Ahead(out, Push(c, rest)) == Ahead(out + [c], rest)
  {
    if rest.Some? {
      assert out + ([c] + rest.value) == out + [c] + rest.value;
    }
  }

  /** The value of a quoted string, or what is wrong with it. */
  method ReadString(s: string) returns (r: Read<string>)
    ensures r == ParseString(s)
  {
    if |s| < 2 || s[0] != '"' || s[|s| - 1] != '"' {
      return Read(None, []);
    }
    var body := s[1..|s| - 1];
    var out, esc := "", false;
    assert body[0..] == body;
    Nothing(Unescape(body, false));
    for i := 0 to |body|
      invariant Unescape(body, false) == Ahead(out, Unescape(body[i..], esc))
    {
      var c := body[i];
      assert body[i..][1..] == body[i + 1..];
      PushOne(out, c, Unescape(body[i + 1..], false));
      if esc {
        if c != '"' && c != '\\' {
          return Bad("E5048");
        }
        out := out + [c];
        esc := false;
      } else if c == '\\' {
        esc := true;
      } else if c < ' ' {
        return Bad("E5048");
      } else {
        out := out + [c];
      }
    }
    assert body[|body|..] == "" && out + "" == out;
    r := if esc then Bad("E5048") else Read(Some(out), []);
  }

  /** What a list's first element adds to the rest of it. */
  lemma ListStep(parts: seq<string>, i: nat, out: seq<string>)
    requires i < |parts|
    ensures
      var v, rest := ParseString(Strip(parts[i])), ParseList(parts[i + 1..]);
      if v.value == None then
        ParseList(parts[i..]) ==
          Read(None, v.codes + if Strip(parts[i]) != "" && Strip(parts[i])[0] == '"' then [] else ["E5048"])
      else
        && Ahead(out, ParseList(parts[i..]).value) == Ahead(out + [v.value.value], rest.value)
        && ParseList(parts[i..]).codes == rest.codes
  {
    hide Strip, Unescape;
    assert parts[i..][0] == parts[i] && parts[i..][1..] == parts[i + 1..];
    var v, rest := ParseString(Strip(parts[i])), ParseList(parts[i + 1..]);
    if v.value != None && rest.value != None {
      assert out + ([v.value.value] + rest.value.value) == out + [v.value.value] + rest.value.value;
    }
  }

  /** The strings between the brackets of a list, cut apart. */
  method ReadParts(parts: seq<string>) returns (r: Read<seq<string>>)
    ensures r == ParseList(parts)
  {
    hide ParseString, Strip;
    var out := [];
    assert parts[0..] == parts;
    Nothing(ParseList(parts).value);
    for i := 0 to |parts|
      invariant ParseList(parts).value == Ahead(out, ParseList(parts[i..]).value)
      invariant ParseList(parts).codes == ParseList(parts[i..]).codes
    {
      var p := Strip(parts[i]);
      var v := ReadString(p);
      ListStep(parts, i, out);
      if v.value == None {
        return Read(None, v.codes + if p != "" && p[0] == '"' then [] else ["E5048"]);
      }
      out := out + [v.value.value];
    }
    assert parts[|parts|..] == [] && out + [] == out;
    r := Read(Some(out), []);
  }

  method ReadList(body: string) returns (r: Read<seq<string>>)
    ensures r == ParseItems(body)
  {
    hide ParseList, Strip;
    if body == "" {
      return Read(Some([]), []);
    }
    var parts := Split(body, ',');
    if Strip(parts[|parts| - 1]) == "" {
      return Bad("E5048");
    }
    r := ReadParts(parts);
  }

  method ReadValue(text: string) returns (r: Read<Value>)
    ensures r == ParseValue(text)
  {
    var raw := Strip(text);
    if raw != "" && raw[0] == '[' {
      if raw[|raw| - 1] != ']' {
        return Bad("E5040");
      }
      var items := ReadList(Strip(raw[1..|raw| - 1]));
      return Read(if items.value == None then None else Some(VList(items.value.value)), items.codes);
    }
    if raw == "true" || raw == "false" {
      return Read(Some(VBool(raw == "true")), []);
    }
    if raw != "" && raw[0] == '"' {
      var s := ReadString(raw);
      return Read(if s.value == None then None else Some(VStr(s.value.value)), s.codes);
    }
    r := ParseScalar(raw);
  }

  // ---------- Line by line ----------

  /** The comments right above a field become its own, and empty lines above those
      are dropped. */
  method TakeNotes(notes: seq<Option<string>>) returns (free: seq<Option<string>>, lead: seq<string>)
    ensures var k := |notes| - Comments(notes);
      free == DropEmpty(notes[..k]) && lead == Texts(notes[k..])
  {
    free, lead := notes, [];
    while free != [] && free[|free| - 1] != None
      invariant free <= notes && lead == Texts(notes[|free|..])
      invariant Comments(notes) == Comments(free) + (|notes| - |free|)
    {
      var k := |free| - 1;
      assert notes[k..][0] == free[k] && notes[k..][1..] == notes[k + 1..];
      lead := [free[k].value] + lead;
      free := free[..k];
    }
    ghost var k := |free|;
    assert notes[..k] == free;
    while free != [] && free[|free| - 1] == None
      invariant DropEmpty(notes[..k]) == DropEmpty(free)
    {
      free := free[..|free| - 1];
    }
  }

  /** Two reports on one line are one. */
  lemma ReportBoth(s: State, line: nat, a: seq<string>, b: seq<string>)
    ensures Report(Report(s, line, a), line, b) == Report(s, line, a + b)
  {
    var ds := (x: seq<string>) => seq(|x|, i requires 0 <= i < |x| => Diag(x[i], line));
    assert ds(a) + ds(b) == ds(a + b);
    assert s.diags + ds(a) + ds(b) == s.diags + (ds(a) + ds(b));
  }

  lemma ReportNone(s: State, line: nat)
    ensures Report(s, line, []) == s
  {
    assert s.diags + [] == s.diags;
  }

  class Reader {
    var blocks: seq<Block>
    var diags: seq<Diag>
    var lead: seq<Option<string>>
    var cur: Option<Block>
    var skipping: bool
    var bal: int

    ghost function S(): State
      reads this
    {
      State(blocks, diags, lead, cur, skipping, bal)
    }

    constructor ()
      ensures S() == Start()
    {
      blocks, diags, lead, cur, skipping, bal := [], [], [], None, false, 0;
    }

    method Report(line: nat, codes: seq<string>)
      modifies this`diags
      ensures S() == Manifest.Report(old(S()), line, codes)
    {
      for i := 0 to |codes|
        invariant diags == old(diags) + seq(i, j requires 0 <= j < i => Diag(codes[j], line))
      {
        diags := diags + [Diag(codes[i], line)];
      }
    }

    /** A line outside every block opens one, or is reported. */
    method ReadHead(line: nat, code: string, trail: Option<string>)
      modifies this
      ensures S() == Outside(old(S()), line, code, trail)
    {
      hide ParseHead, ParseString, Manifest.Report, NonEmpty;
      var head := ParseHead(code);
      ghost var s := S();
      if head == None {
        Report(line, ["E5040"]);
        return;
      }
      var h := head.value;
      ghost var first := if h.arg == None || h.spaced then [] else ["E5040"];
      var arg := Read(None, []);
      if h.arg == None {
        ReportNone(s, line);
        assert first + arg.codes == [];
      } else {
        if !h.spaced {
          Report(line, ["E5040"]);
        } else {
          ReportNone(s, line);
        }
        assert S() == Manifest.Report(s, line, first);
        arg := ReadString(h.arg.value);
        Report(line, arg.codes);
        ReportBoth(s, line, first, arg.codes);
      }
      assert S() == Manifest.Report(s, line, first + arg.codes);
      cur := Some(Block(h.name, arg.value, line, NonEmpty(trail), lead, [], []));
      lead := [];
    }

    /** A line inside a block: its end, a field, or something to get over. */
    method ReadField(line: nat, code: string, trail: Option<string>)
      requires cur != None
      modifies this
      ensures S() == Inside(old(S()), line, code, trail)
    {
      hide ParsePair, ParseValue, Manifest.Report, NonEmpty, Balance, Comments, DropEmpty, Texts;
      if skipping {
        bal := bal + Balance(code);
        if bal <= 0 {
          skipping := false;
        }
        return;
      }
      var b := cur.value;
      if code == "}" {
        blocks, cur := blocks + [b], None;
        return;
      }
      var pair := ParsePair(code);
      if pair == None {
        Report(line, ["E5040"]);
        if '{' in code || '}' in code {
          bal, skipping := Balance(code), true;
        } else {
          cur := Some(b.(fields := b.fields + [Field(BAD_LINE, None, None, [])]));
        }
        return;
      }
      var v := ReadValue(pair.value.raw);
      Report(line, v.codes);
      var free, mine := TakeNotes(b.free);
      cur := Some(b.(free := free, fields := b.fields + [Field(pair.value.key, v.value, NonEmpty(trail), mine)]));
    }

    method ReadLine(line: nat, text: string)
      modifies this
      ensures S() == Step(old(S()), line, text)
    {
      hide CutLine, Strip, Inside, Outside, Manifest.Report, NonEmpty;
      var cut := StripComment(text);
      if cut.Open? {
        Report(line, ["E5040"]);
        return;
      }
      if cut.hash {
        Report(line, ["E5042"]);
      }
      var code := Strip(cut.code);
      if code == "" {
        if cur == None {
          lead := lead + [NonEmpty(cut.trail)];
        } else {
          cur := Some(cur.value.(free := cur.value.free + [NonEmpty(cut.trail)]));
        }
      } else if cur == None {
        ReadHead(line, code, cut.trail);
      } else {
        ReadField(line, code, cut.trail);
      }
    }

    /** All lines, then the end of the text. */
    method ReadText(text: string) returns (p: Parsed)
      requires S() == Start()
      modifies this
      ensures p == Parse(text)
    {
      var lines := Split(text, '\n');
      for i := 0 to |lines|
        invariant Fold(Step, Start(), 1, lines) == Fold(Step, S(), i + 1, lines[i..])
      {
        assert lines[i..][1..] == lines[i + 1..];
        ReadLine(i + 1, lines[i]);
      }
      if cur != None {
        Report(cur.value.line, ["E5040"]);
      }
      p := Parsed(blocks, diags, Texts(lead));
    }
  }
}
