/** Rendering a manifest gives text that reads back without a complaint, to the same
    content, and renders to itself. */
module ManifestTheorem {
  import opened Options
  import opened Text
  import opened Manifest
  import opened ManifestRender
  import opened Sorting
  import opened ManifestLaws

  // ---------- What every parse keeps ----------

  predicate IsLead(xs: seq<Option<string>>) { forall i :: 0 <= i < |xs| ==> IsTrail(xs[i]) }

  predicate IsField(f: Field) {
    f.value == None || (Ident(f.key) && IsValue(f.value.value) && IsTrail(f.trail) && AllNotes(f.lead))
  }

  predicate IsBlock(b: Block) {
    && Ident(b.name) && (b.arg == None || NoControl(b.arg.value))
    && IsTrail(b.trail) && IsLead(b.lead) && IsLead(b.free)
    && forall i :: 0 <= i < |b.fields| ==> IsField(b.fields[i])
  }

  predicate IsState(s: State) {
    && (forall i :: 0 <= i < |s.blocks| ==> IsBlock(s.blocks[i]))
    && IsLead(s.lead) && (s.cur == None || IsBlock(s.cur.value))
  }

  lemma {:induction false} CutNote(s: string, inStr: bool, esc: bool)
    requires OneLine(s)
    ensures var cut := CutLine(s, inStr, esc); cut.Cut? ==> IsTrail(NonEmpty(cut.trail))
  {
    if s != "" {
      if inStr {
        CutNote(s[1..], s[0] != '"' || esc, s[0] == '\\' && !esc);
      } else if s[0] == '"' {
        CutNote(s[1..], true, false);
      } else if s[0] == '/' && |s| > 1 && s[1] == '/' {
        StripPart(s[2..]);
      } else if s[0] == '#' {
        StripPart(s[1..]);
      } else {
        CutNote(s[1..], false, false);
      }
    }
  }

  lemma {:induction false} UnescapePart(body: string, esc: bool)
    ensures Unescape(body, esc) != None ==> NoControl(Unescape(body, esc).value)
    ensures Unescape(body, esc) != None ==> forall c :: c in Unescape(body, esc).value ==> c in body
  {
    if body != "" {
      UnescapePart(body[1..], false);
      UnescapePart(body[1..], true);
    }
  }

  lemma ParseStringPart(s: string)
    ensures var r := ParseString(s).value;
      r != None ==> NoControl(r.value) && forall c :: c in r.value ==> c in s
  {
    if Quoted(s) {
      UnescapePart(s[1..|s| - 1], false);
    }
  }

  lemma OneItemMore(x: string, xs: seq<string>)
    requires IsItem(x) && IsValue(VList(xs))
    ensures IsValue(VList([x] + xs))
  {
  }

  lemma {:induction false} ParseListItems(parts: seq<string>)
    requires forall i :: 0 <= i < |parts| ==> ',' !in parts[i]
    ensures var r := ParseList(parts).value; r != None ==> IsValue(VList(r.value))
  {
    hide ParseString, Strip, NoControl;
    if parts != [] {
      StripPart(parts[0]);
      ParseStringPart(Strip(parts[0]));
      ParseListItems(parts[1..]);
      var v, rest := ParseString(Strip(parts[0])).value, ParseList(parts[1..]).value;
      if v != None && rest != None {
        assert IsItem(v.value);
        OneItemMore(v.value, rest.value);
      }
    }
  }

  lemma ParseItemsShape(body: string)
    ensures var r := ParseItems(body).value; r != None ==> IsValue(VList(r.value))
  {
    var parts := Split(body, ',');
    forall i | 0 <= i < |parts| ensures ',' !in parts[i] {
      SplitPiece(body, ',', i);
    }
    ParseListItems(parts);
  }

  lemma ParseScalarShape(raw: string)
    ensures var r := ParseScalar(raw).value; r != None ==> IsValue(r.value)
  {
    ParseStringPart(raw);
  }

  lemma ParseValueShape(text: string)
    ensures var r := ParseValue(text).value; r != None ==> IsValue(r.value)
  {
    var raw := Strip(text);
    if raw != "" && raw[0] == '[' {
      if raw[|raw| - 1] == ']' {
        ParseItemsShape(Strip(raw[1..|raw| - 1]));
      }
    } else {
      ParseScalarShape(raw);
    }
  }

  lemma AddFieldKeeps(b: Block, key: string, value: Option<Value>, trail: Option<string>)
    requires IsBlock(b) && Ident(key) && (value == None || IsValue(value.value)) && IsTrail(NonEmpty(trail))
    ensures IsBlock(AddField(b, key, value, trail))
  {
    DropEmptyPart(b.free[..|b.free| - Comments(b.free)]);
    TextsNotes(b.free[|b.free| - Comments(b.free)..]);
  }

  lemma {:induction false} DropEmptyPart(free: seq<Option<string>>)
    requires IsLead(free)
    ensures IsLead(DropEmpty(free))
  {
    if free != [] && free[|free| - 1] == None {
      DropEmptyPart(free[..|free| - 1]);
    }
  }

  lemma OpenBlockKeeps(s: State, h: Head, line: nat, trail: Option<string>)
    requires IsState(s) && Ident(h.name) && IsTrail(NonEmpty(trail))
    ensures IsState(OpenBlock(s, h, line, trail))
  {
    if h.arg != None {
      ParseStringPart(h.arg.value);
    }
  }

  lemma FieldKeeps(s: State, line: nat, code: string, trail: Option<string>, p: Pair)
    requires IsState(s) && s.cur != None && !s.skipping && code != "}" && IsTrail(NonEmpty(trail))
    requires ParsePair(code) == Some(p)
    ensures IsState(Inside(s, line, code, trail))
  {
    ParseValueShape(p.raw);
    AddFieldKeeps(s.cur.value, p.key, ParseValue(p.raw).value, trail);
  }

  lemma OtherKeeps(s: State, line: nat, code: string, trail: Option<string>)
    requires IsState(s) && s.cur != None && IsTrail(NonEmpty(trail))
    requires s.skipping || code == "}" || ParsePair(code) == None
    ensures IsState(Inside(s, line, code, trail))
  {
  }

  lemma InsideKeeps(s: State, line: nat, code: string, trail: Option<string>)
    requires IsState(s) && s.cur != None && IsTrail(NonEmpty(trail))
    ensures IsState(Inside(s, line, code, trail))
  {
    if s.skipping || code == "}" || ParsePair(code) == None {
      OtherKeeps(s, line, code, trail);
    } else {
      FieldKeeps(s, line, code, trail, ParsePair(code).value);
    }
  }

  lemma OutsideKeeps(s: State, line: nat, code: string, trail: Option<string>)
    requires IsState(s) && s.cur == None && IsTrail(NonEmpty(trail))
    ensures IsState(Outside(s, line, code, trail))
  {
    if ParseHead(code) != None {
      OpenBlockKeeps(s, ParseHead(code).value, line, trail);
    }
  }

  lemma StepKeeps(s: State, line: nat, text: string)
    requires IsState(s) && OneLine(text)
    ensures IsState(Step(s, line, text))
  {
    CutNote(text, false, false);
    var cut := CutLine(text, false, false);
    if cut.Cut? {
      var s := if cut.hash then Report(s, line, ["E5042"]) else s;
      var code := Strip(cut.code);
      if code == "" {
        assert IsState(Note(s, cut.trail));
      } else if s.cur != None {
        InsideKeeps(s, line, code, cut.trail);
      } else {
        OutsideKeeps(s, line, code, cut.trail);
      }
    }
  }

  /** What each step keeps, all of them keep. */
  lemma {:induction false} FoldKeeps<S(!new)>(
      step: (S, nat, string) -> S, inv: S -> bool, s: S, line: nat, lines: seq<string>)
    requires inv(s) && forall s: S, n: nat, x :: inv(s) && OneLine(x) ==> inv(step(s, n, x))
    requires forall i :: 0 <= i < |lines| ==> OneLine(lines[i])
    ensures inv(Fold(step, s, line, lines))
    decreases |lines|
  {
    if lines != [] {
      assert OneLine(lines[0]);
      FoldKeeps(step, inv, step(s, line, lines[0]), line + 1, lines[1..]);
    }
  }

  lemma {:induction false} TextsNotes(xs: seq<Option<string>>)
    requires IsLead(xs)
    ensures AllNotes(Texts(xs))
  {
    if xs != [] {
      TextsNotes(xs[1..]);
    }
  }

  lemma {:induction false} RowsShape(fields: seq<Field>)
    requires forall i :: 0 <= i < |fields| ==> IsField(fields[i])
    ensures forall i :: 0 <= i < |Rows(fields)| ==> IsRow(Rows(fields)[i])
  {
    if fields != [] {
      RowsShape(fields[..|fields| - 1]);
    }
  }

  lemma PlainShape(b: Block)
    requires IsBlock(b)
    ensures IsContent(Plain(b))
  {
    TextsNotes(b.lead);
    TextsNotes(b.free);
    RowsShape(b.fields);
  }

  lemma StartIs()
    ensures IsState(Start())
  {
  }

  /** Whatever the text, what a parse finds can be rendered. */
  lemma ParseShape(text: string)
    ensures forall i :: 0 <= i < |Parse(text).blocks| ==> IsContent(Plain(Parse(text).blocks[i]))
    ensures AllNotes(Parse(text).tail)
  {
    hide Step, Fold, Split, IsContent, Plain, Texts, IsBlock, IsLead, AllNotes;
    StartIs();
    var lines := Split(text, '\n');
    forall i | 0 <= i < |lines| ensures OneLine(lines[i]) {
      SplitPiece(text, '\n', i);
    }
    var s := Fold(Step, Start(), 1, lines);
    forall s: State, n: nat, x | IsState(s) && OneLine(x) ensures IsState(Step(s, n, x)) {
      StepKeeps(s, n, x);
    }
    FoldKeeps(Step, IsState, Start(), 1, lines);
    TextsNotes(s.lead);
    forall i | 0 <= i < |s.blocks| ensures IsContent(Plain(s.blocks[i])) {
      PlainShape(s.blocks[i]);
    }
  }

  // ---------- Sorting ----------

  lemma SortedItems(xs: seq<string>)
    requires IsValue(VList(xs))
    ensures IsValue(VList(Sort(xs, Before)))
  {
    SortPart(xs, Before);
    var ys := Sort(xs, Before);
    forall i | 0 <= i < |ys| ensures IsItem(ys[i]) {
      assert ys[i] in xs;
    }
  }

  lemma OrdersAreStrict(schema: Schema, name: string)
    ensures Strict(Before) && Strict(BlockOrder(schema)) && Strict(RowOrder(schema, name))
  {
    forall a, b, c
      ensures (Before(a, b) ==> !Before(b, a)) && (!Before(a, b) && !Before(b, c) ==> !Before(a, c))
    {
      BeforeStrict(a, b, c);
    }
    var lt := BlockOrder(schema);
    forall x, y, z
      ensures (lt(x, y) ==> !lt(y, x)) && (!lt(x, y) && !lt(y, z) ==> !lt(x, z))
    {
      BeforeStrict(Arg(x), Arg(y), Arg(z));
    }
  }
}
