/** What the manifest parser reports for a line it cannot take, where, and how it goes
    on; and which names, strings and numbers it takes. */
module ManifestDiagnostics {
  import opened Options
  import opened Text
  import opened Manifest
  import opened ManifestRender
  import opened ManifestLaws

  /** A state with one more report. */
  function Told(s: State, code: string, line: nat): State { s.(diags := s.diags + [Diag(code, line)]) }

  // ---------- Lines of code ----------

  /** Code without strings and comments is the whole line. */
  lemma CutAll(t: string)
    requires IsPlain(t)
    ensures CutLine(t, false, false) == Cut(t, None, false)
  {
    CutPlain(t, "");
    assert t + "" == t;
  }

  lemma TailPart(t: string, n: nat)
    requires n <= |t|
    ensures forall c :: c in StripLeft(t[n..]) ==> c in t
  {
    assert forall c :: c in StripLeft(t[n..]) ==> c in t[n..];
  }

  lemma NotARest(rest: string)
    requires '{' !in rest
    ensures ParseHeadRest(rest) == None
  {
    if rest != "" && rest[0] == '"' && StringEnd(rest[1..]) != None {
      var k := StringEnd(rest[1..]).value;
      TailPart(rest, k + 1);
    }
    hide StringEnd, StripLeft;
  }

  /** Without an opening brace there is no head. */
  lemma NotAHead(t: string)
    requires '{' !in t
    ensures ParseHead(t) == None
  {
    var n := IdentLen(t);
    TailPart(t, n);
    NotARest(StripLeft(t[n..]));
    hide IdentLen, StripLeft, ParseHeadRest;
  }

  lemma NotAPair(t: string)
    requires '=' !in t
    ensures ParsePair(t) == None
  {
    TailPart(t, IdentLen(t));
    hide IdentLen, StripLeft;
  }

  lemma StripPart(t: string)
    ensures forall c :: c in Strip(t) ==> c in t
  {
    assert forall c :: c in StripLeft(t) ==> c in t;
    assert forall c :: c in StripRight(StripLeft(t)) ==> c in StripLeft(t);
  }

  // ---------- What a line reports ----------

  /** A string that is still open at the end of its line: one report, nothing else. */
  lemma OpenString(s: State, line: nat, a: string, b: string)
    requires IsPlain(a) && '"' !in b && '\\' !in b
    ensures Step(s, line, a + ("\"" + b)) == Told(s, "E5040", line)
  {
    CutPlain(a, "\"" + b);
    CutQuote(b);
    StaysOpen(b);
  }

  lemma {:induction false} StaysOpen(b: string)
    requires '"' !in b && '\\' !in b
    ensures CutLine(b, true, false) == Open
  {
    if b != "" {
      StaysOpen(b[1..]);
    }
  }

  /** A comment after `#` is reported, and taken as one after `//`. */
  lemma HashComment(s: State, line: nat, a: string, text: string)
    requires IsPlain(a)
    ensures Step(s, line, a + ("#" + text)) == Step(Told(s, "E5042", line), line, a + ("//" + text))
  {
    CommentCuts(text);
    hide *;
    CommentBehind(a, "#" + text, Cut("", Some(Strip(text)), true));
    CommentBehind(a, "//" + text, Cut("", Some(Strip(text)), false));
    SameCut(s, line, a + ("#" + text), a + ("//" + text), a, Some(Strip(text)));
  }

  lemma CommentBehind(a: string, q: string, cut: Cut)
    requires IsPlain(a) && CutLine(q, false, false) == cut && cut.Cut? && cut.code == ""
    ensures CutLine(a + q, false, false) == cut.(code := a)
  {
    hide CutLine, IsPlain;
    CutPlain(a, q);
    assert a + "" == a;
  }

  lemma SameCut(s: State, line: nat, t: string, u: string, code: string, trail: Option<string>)
    requires CutLine(t, false, false) == Cut(code, trail, true) && CutLine(u, false, false) == Cut(code, trail, false)
    ensures Step(s, line, t) == Step(Told(s, "E5042", line), line, u)
  {
    hide CutLine, Inside, Outside, Note, Strip;
    assert Report(s, line, ["E5042"]) == Told(s, "E5042", line);
  }

  lemma CommentCuts(text: string)
    ensures CutLine("#" + text, false, false) == Cut("", Some(Strip(text)), true)
    ensures CutLine("//" + text, false, false) == Cut("", Some(Strip(text)), false)
  {
    var a, b := "#" + text, "//" + text;
    assert a[0] == '#' && a[1..] == text && b[0] == '/' && b[1] == '/' && b[2..] == text;
  }

  /** Outside of blocks, a line that opens none. */
  lemma LineOutside(s: State, line: nat, t: string)
    requires IsPlain(t) && '{' !in t && Strip(t) != "" && s.cur == None
    ensures Step(s, line, t) == Told(s, "E5040", line)
  {
    CutAll(t);
    StripPart(t);
    NotAHead(Strip(t));
    hide CutLine, Strip, ParseHead;
  }

  /** In a block, a line that is no field: it is reported, and a field without a name
      and a value stands for it, which is not rendered. */
  lemma LineInside(s: State, line: nat, t: string)
    requires IsPlain(t) && '=' !in t && '{' !in t && '}' !in t && Strip(t) != "" && s.cur != None && !s.skipping
    ensures
      var after, b := Step(s, line, t), s.cur.value;
      && after.cur != None && after == Told(s, "E5040", line).(cur := after.cur)
      && |after.cur.value.fields| == |b.fields| + 1 && after.cur.value == b.(fields := after.cur.value.fields)
      && after.cur.value.fields[..|b.fields|] == b.fields && after.cur.value.fields[|b.fields|].value == None
      && Rows(after.cur.value.fields) == Rows(b.fields)
  {
    CutAll(t);
    StripPart(t);
    NotAPair(Strip(t));
    hide CutLine, Strip, ParsePair;
    var b := s.cur.value;
    var bad := Field(BAD_LINE, None, None, []);
    assert (b.fields + [bad])[..|b.fields|] == b.fields;
    assert Strip(t) != "}";
  }

  // ---------- Nested blocks ----------

  /** How many braces more a line opens than it closes. */
  function Net(t: string): int { multiset(t)['{'] as int - multiset(t)['}'] as int }

  lemma {:induction false} CountIs(t: string, c: char)
    ensures Count(t, c) == multiset(t)[c]
  {
    if t != "" {
      assert t == [t[0]] + t[1..];
      CountIs(t[1..], c);
    }
  }

  /** White space around a line opens nothing. */
  lemma NetStrip(t: string)
    ensures Net(Strip(t)) == Net(t)
  {
    var r := StripLeft(t);
    var a := t[..|t| - |r|];
    LeftBlank(t);
    NoBraces(a);
    NetSum(a, r, t);
    var q := StripRight(r);
    var z := r[|q|..];
    RightBlank(r);
    NoBraces(z);
    NetSum(q, z, r);
  }

  lemma NetSum(a: string, b: string, t: string)
    requires t == a + b
    ensures Net(t) == Net(a) + Net(b)
  {
    assert multiset(t) == multiset(a) + multiset(b);
  }

  lemma {:induction false} LeftBlank(t: string)
    ensures Blank(t[..|t| - |StripLeft(t)|])
  {
    if t != "" && Space(t[0]) {
      LeftBlank(t[1..]);
      var n := |t| - |StripLeft(t)|;
      assert t[..n] == [t[0]] + t[1..][..n - 1];
    }
  }

  lemma {:induction false} RightBlank(t: string)
    ensures Blank(t[|StripRight(t)|..])
  {
    if t != "" && Space(t[|t| - 1]) {
      var u := t[..|t| - 1];
      RightBlank(u);
      assert t[|StripRight(t)|..] == u[|StripRight(u)|..] + [t[|t| - 1]];
    }
  }

  lemma NoBraces(a: string)
    requires Blank(a)
    ensures Net(a) == 0
  {
    assert forall c :: c in a ==> Space(c);
    assert '{' !in a && '}' !in a;
    assert '{' !in multiset(a) && '}' !in multiset(a);
  }

  /** A line of a construct that is being passed over. */
  lemma LineSkipped(s: State, line: nat, t: string)
    requires IsPlain(t) && Strip(t) != "" && s.cur != None && s.skipping
    ensures Step(s, line, t) == s.(bal := s.bal + Net(t), skipping := s.bal + Net(t) > 0)
  {
    CutAll(t);
    CountIs(Strip(t), '{');
    CountIs(Strip(t), '}');
    NetStrip(t);
    hide CutLine, Strip;
  }

  /** The line that starts one: it is no field and has a brace. */
  lemma SkipStarts(s: State, line: nat, t: string)
    requires IsPlain(t) && '=' !in t && ('{' in Strip(t) || '}' in Strip(t)) && Strip(t) != "}"
    requires s.cur != None && !s.skipping
    ensures Step(s, line, t) == Told(s, "E5040", line).(skipping := true, bal := Net(t))
  {
    CutAll(t);
    StripPart(t);
    NotAPair(Strip(t));
    CountIs(Strip(t), '{');
    CountIs(Strip(t), '}');
    NetStrip(t);
    hide CutLine, Strip, ParsePair;
  }

  /** The lines from the one numbered `line` on, one after the other. */
  ghost function Steps(s: State, line: nat, lines: seq<string>): State
    decreases |lines|
  {
    if lines == [] then s else Steps(Step(s, line, lines[0]), line + 1, lines[1..])
  }

  function NetOf(lines: seq<string>): int {
    if lines == [] then 0 else Net(lines[0]) + NetOf(lines[1..])
  }

  /** Lines of code that leave braces open, but for the last one, which closes them. */
  predicate Closing(open: int, lines: seq<string>)
    decreases |lines|
  {
    && lines != [] && IsPlain(lines[0]) && Strip(lines[0]) != ""
    && var left := open + Net(lines[0]);
    if |lines| == 1 then left <= 0 else left > 0 && Closing(left, lines[1..])
  }

  lemma {:induction false} ClosingSkips(s: State, line: nat, lines: seq<string>)
    requires s.cur != None && s.skipping && Closing(s.bal, lines)
    ensures Steps(s, line, lines) == s.(bal := s.bal + NetOf(lines), skipping := false)
    decreases |lines|
  {
    LineSkipped(s, line, lines[0]);
    hide Step, Net;
    if |lines| == 1 {
      assert lines[1..] == [];
    } else {
      ClosingSkips(Step(s, line, lines[0]), line + 1, lines[1..]);
    }
  }

  /** A construct that opens braces inside a block, with lines of code up to where they
      are closed, is passed over with one report, at its first line; the block goes on
      as if it had not been there. */
  lemma NestedIsSkipped(s: State, line: nat, first: string, lines: seq<string>)
    requires IsPlain(first) && '=' !in first && '{' in Strip(first) && s.cur != None && !s.skipping
    requires Closing(Net(first), lines)
    ensures Steps(s, line, [first] + lines) == Told(s, "E5040", line).(bal := Net(first) + NetOf(lines))
  {
    SkipStarts(s, line, first);
    assert ([first] + lines)[1..] == lines;
    hide Step, Net;
    ClosingSkips(Step(s, line, first), line + 1, lines);
  }

  // ---------- Whole texts ----------

  lemma {:induction false} FoldIsSteps(s: State, line: nat, lines: seq<string>)
    ensures Fold(Step, s, line, lines) == Steps(s, line, lines)
    decreases |lines|
  {
    hide Step;
    if lines != [] {
      FoldIsSteps(Step(s, line, lines[0]), line + 1, lines[1..]);
    }
  }

  /** A block that is not closed is reported at its head, and is not among the blocks. */
  lemma OpenBlockAtEnd(s: State)
    ensures
      var p := Finish(s);
      && p.blocks == s.blocks
      && p.diags == s.diags + if s.cur == None then [] else [Diag("E5040", s.cur.value.line)]
  {
  }

  function EmptyLines(n: nat): seq<string> { if n == 0 then [] else [""] + EmptyLines(n - 1) }

  lemma EmptyStep(s: State, line: nat)
    requires s.cur == None
    ensures Step(s, line, "").cur == None && Step(s, line, "").diags == s.diags
  {
    CutAll("");
    hide CutLine;
  }

  lemma {:induction false} AfterEmptyLines(s: State, line: nat, n: nat, t: string)
    requires IsPlain(t) && '{' !in t && Strip(t) != "" && s.cur == None
    ensures
      var after := Steps(s, line, EmptyLines(n) + [t]);
      after.cur == None && after.diags == s.diags + [Diag("E5040", line + n)]
    decreases n
  {
    hide Step, IsPlain, Strip;
    var lines := EmptyLines(n) + [t];
    if n == 0 {
      LineOutside(s, line, t);
      assert lines == [t] && lines[1..] == [];
    } else {
      assert lines[0] == "" && lines[1..] == EmptyLines(n - 1) + [t];
      var s1 := Step(s, line, "");
      EmptyStep(s, line);
      AfterEmptyLines(s1, line + 1, n - 1, t);
    }
  }

  lemma {:induction false} EmptyAreEmpty(n: nat)
    ensures |EmptyLines(n)| == n && forall i :: 0 <= i < n ==> EmptyLines(n)[i] == ""
  {
    if n > 0 {
      EmptyAreEmpty(n - 1);
    }
  }

  /** Empty lines, and then one that opens no block: it is reported with its number. */
  lemma LinesAreNumbered(n: nat, t: string)
    requires IsPlain(t) && '{' !in t && Strip(t) != "" && OneLine(t)
    ensures Parse(Join(EmptyLines(n) + [t], "\n")).diags == [Diag("E5040", n + 1)]
  {
    var lines := EmptyLines(n) + [t];
    EmptyAreEmpty(n);
    hide Step, Strip, Steps, IsPlain, EmptyLines, Fold, Split, Join;
    SplitJoin(lines, '\n');
    FoldIsSteps(Start(), 1, lines);
    AfterEmptyLines(Start(), 1, n, t);
    OpenBlockAtEnd(Steps(Start(), 1, lines));
  }

  // ---------- Heads ----------

  /** A block's argument right behind its name is reported, and taken. */
  lemma ArgumentNeedsSpace(s: State, line: nat, name: string, a: string)
    requires Ident(name) && NoControl(a) && s.cur == None && IsPlain(name)
    ensures
      var after := Step(s, line, name + (CanonStr(a) + " {"));
      && after == Told(s, "E5040", line).(cur := after.cur, lead := [])
      && after.cur == Some(Block(name, Some(a), line, None, s.lead, [], []))
    ensures
      var after := Step(s, line, name + (" " + (CanonStr(a) + " {")));
      after == s.(cur := Some(Block(name, Some(a), line, None, s.lead, [], [])), lead := [])
  {
    var q := CanonStr(a) + " {";
    HeadCuts(name, a);
    TightHead(name, a);
    ParseArgHead(name, a);
    ParseCanonStr(a);
    hide CutLine, ParseHead, Strip, CanonStr, ParseString;
    Opened(s, line, name + q, name, a, false);
    Opened(s, line, name + (" " + q), name, a, true);
  }

  lemma Opened(s: State, line: nat, t: string, name: string, a: string, spaced: bool)
    requires s.cur == None && CutLine(t, false, false) == Cut(t, None, false) && Strip(t) == t && t != ""
    requires ParseHead(t) == Some(Head(name, Some(CanonStr(a)), spaced))
    requires ParseString(CanonStr(a)) == Read(Some(a), [])
    ensures
      Step(s, line, t) ==
        (if spaced then s else Told(s, "E5040", line)).(
          cur := Some(Block(name, Some(a), line, None, s.lead, [], [])), lead := [])
  {
    hide CutLine, ParseHead, Strip, CanonStr, ParseString;
    assert Report(s, line, []).diags == s.diags;
    assert Report(s, line, ["E5040"]).diags == Told(s, "E5040", line).diags;
    assert ["E5040"] + [] == ["E5040"];
  }

  lemma HeadCuts(name: string, a: string)
    requires Ident(name)
    ensures
      var t, u := name + (CanonStr(a) + " {"), name + (" " + (CanonStr(a) + " {"));
      && CutLine(t, false, false) == Cut(t, None, false) && CutLine(u, false, false) == Cut(u, None, false)
      && Strip(t) == t && Strip(u) == u && t != "" && u != ""
  {
    IdentLine(name);
    ArgumentCuts(a);
    EndsOnBrace(name, CanonStr(a));
    EndsOnBrace(name, " " + CanonStr(a));
    hide *;
    SpacedCuts(name, CanonStr(a));
    assert " " + (CanonStr(a) + " {") == " " + CanonStr(a) + " {";
  }

  lemma SpacedCuts(name: string, c: string)
    requires IsPlain(name) && CutLine(c + " {", false, false) == Cut(c + " {", None, false)
    ensures
      var t, u := name + (c + " {"), name + (" " + (c + " {"));
      CutLine(t, false, false) == Cut(t, None, false) && CutLine(u, false, false) == Cut(u, None, false)
  {
    assert IsPlain(" ");
    hide *;
    PlainThen(name, c + " {");
    PlainThen(" ", c + " {");
    PlainThen(name, " " + (c + " {"));
  }

  lemma PlainThen(a: string, q: string)
    requires IsPlain(a) && CutLine(q, false, false) == Cut(q, None, false)
    ensures CutLine(a + q, false, false) == Cut(a + q, None, false)
  {
    hide CutLine, IsPlain;
    CutPlain(a, q);
  }

  lemma ArgumentCuts(a: string)
    ensures CutLine(CanonStr(a) + " {", false, false) == Cut(CanonStr(a) + " {", None, false)
  {
    CutAll(" {");
    CutCanonStr(a, " {");
    hide CutLine, CanonStr;
  }

  lemma EndsOnBrace(name: string, a: string)
    requires name != "" && !Space(name[0])
    ensures Strip(name + (a + " {")) == name + (a + " {")
  {
    var t := name + (a + " {");
    assert t[0] == name[0] && t[|t| - 1] == '{' && !Space('{');
    StripPadded("", t, "");
    assert "" + t + "" == t;
  }

  lemma TightHead(name: string, a: string)
    requires Ident(name)
    ensures ParseHead(name + (CanonStr(a) + " {")) == Some(Head(name, Some(CanonStr(a)), false))
  {
    var q := CanonStr(a) + " {";
    assert q[0] == '"' && !IdentChar('"') && !Space('"') && |name| > 0;
    hide ParseHead, ParseHeadRest, IdentLen, StripLeft, Ident, CanonStr;
    ParseArgRest(a);
    IdentThen(name, q);
    StripLeftPad("", q);
    assert "" + q == q && (name + q)[|name|] == q[0];
    TightHeadOf(name + q, |name|, q, CanonStr(a));
  }

  lemma TightHeadOf(line: string, n: nat, rest: string, arg: string)
    requires 0 < n < |line| && IdentLen(line) == n && line[n] == '"' && StripLeft(line[n..]) == rest
    requires ParseHeadRest(rest) == Some(WithArg(arg))
    ensures ParseHead(line) == Some(Head(line[..n], Some(arg), false))
  {
    hide IdentLen, StripLeft, ParseHeadRest;
  }

  // ---------- Names, strings and numbers ----------

  /** Identifiers: a small letter or underscore, then those and digits. */
  lemma IdentsAre(s: string)
    ensures
      Ident(s) <==>
        && s != "" && s[0] in "abcdefghijklmnopqrstuvwxyz_"
        && forall i :: 0 <= i < |s| ==> s[i] in "abcdefghijklmnopqrstuvwxyz_0123456789"
  {
    forall c: char
      ensures IdentStart(c) <==> c in "abcdefghijklmnopqrstuvwxyz_"
      ensures IdentChar(c) <==> c in "abcdefghijklmnopqrstuvwxyz_0123456789"
    {
      CharOf(c);
    }
  }

  lemma CharOf(c: char)
    ensures IdentStart(c) <==> c in "abcdefghijklmnopqrstuvwxyz_"
    ensures IdentChar(c) <==> c in "abcdefghijklmnopqrstuvwxyz_0123456789"
  {
    LetterOf(c);
    DigitOf(c);
    assert "abcdefghijklmnopqrstuvwxyz_0123456789" == "abcdefghijklmnopqrstuvwxyz_" + "0123456789";
  }

  lemma LetterOf(c: char)
    ensures 'a' <= c <= 'z' || c == '_' <==> c in "abcdefghijklmnopqrstuvwxyz_"
  {
    var letters := "abcdefghijklmnopqrstuvwxyz_";
    if 'a' <= c <= 'z' {
      assert letters[c as int - 'a' as int] == c;
    } else if c == '_' {
      assert letters[26] == c;
    }
  }

  lemma DigitOf(c: char)
    ensures '0' <= c <= '9' <==> c in "0123456789"
  {
    if '0' <= c <= '9' {
      assert "0123456789"[c as int - '0' as int] == c;
    }
  }

  /** A text in quotes is read back, unless it has a character below U+0020. */
  lemma StringsRead(s: string)
    ensures
      ParseString(CanonStr(s)) ==
        if forall i :: 0 <= i < |s| ==> s[i] >= '\U{20}' then Read(Some(s), []) else Read(None, ["E5048"])
  {
    if forall i :: 0 <= i < |s| ==> s[i] >= '\U{20}' {
      ParseCanonStr(s);
    } else {
      ControlIsRefused(s);
      var q := CanonStr(s);
      assert q[1..|q| - 1] == Escape(s);
    }
  }

  lemma {:induction false} ControlIsRefused(s: string)
    requires exists i :: 0 <= i < |s| && s[i] < '\U{20}'
    ensures Unescape(Escape(s), false) == None
  {
    var i :| 0 <= i < |s| && s[i] < '\U{20}';
    EscapeNext(s, "");
    AppendNothing(Escape(s));
    AppendNothing(Escape(s[1..]));
    if i > 0 {
      assert s[1..][i - 1] == s[i];
      ControlIsRefused(s[1..]);
    }
    var c, rest := s[0], Escape(s[1..]);
    if c == '"' || c == '\\' {
      TwoChars('\\', c, rest);
      HeadTail('\\', [c] + rest);
      HeadTail(c, rest);
    } else {
      HeadTail(c, rest);
    }
  }

  /** An integer is read back, unless 64 bits cannot hold it; a minus sign is written for
      negative ones only. */
  lemma IntegersRead(n: int)
    ensures CanonInt(n) != "" && (CanonInt(n)[0] == '-' <==> n < 0)
    ensures
      ParseValue(CanonInt(n)) ==
        if -0x8000_0000_0000_0000 <= n < 0x8000_0000_0000_0000 then Read(Some(VInt(n)), []) else Read(None, ["E5048"])
  {
    var raw := CanonInt(n);
    CanonIntShape(n);
    IntegerStarts(n);
    IntegerScalar(raw, n);
    hide CanonInt, ParseScalar, Trimmed, IsInt, IntOf;
    ParsePlainScalar(raw, ParseScalar(raw));
  }

  lemma IntegerStarts(n: int)
    ensures CanonInt(n) != "" && (CanonInt(n)[0] == '-' <==> n < 0) && Trimmed(CanonInt(n))
  {
    var m := if n < 0 then -n else n;
    var d := Decimal(m);
    DigitEnds(m);
    hide Decimal;
    if n < 0 {
      var r := "-" + d;
      assert r[0] == '-' && r[|r| - 1] == d[|d| - 1];
    }
  }

  lemma DigitEnds(m: nat)
    ensures var d := Decimal(m); d != "" && Digit(d[0]) && Digit(d[|d| - 1])
  {
    DecimalDigits(m);
    hide Decimal, NatOf;
  }

  lemma IntegerScalar(raw: string, n: int)
    requires IsInt(raw) && IntOf(raw) == n
    ensures raw != "" && raw[0] != '['
    ensures
      ParseScalar(raw) ==
        if -0x8000_0000_0000_0000 <= n < 0x8000_0000_0000_0000 then Read(Some(VInt(n)), []) else Read(None, ["E5048"])
  {
    hide IntOf, ParseString;
  }
}
