/** Each piece of canonical text reads back as what it was written from. */
module ManifestLaws {
  import opened Options
  import opened Text
  import opened Manifest
  import opened ManifestRender

  // ---------- What a parse can hold ----------

  predicate OneLine(s: string) { '\n' !in s }

  /** A comment as the parser keeps it. */
  predicate IsNote(s: string) { s != "" && Trimmed(s) && OneLine(s) }

  predicate NoControl(s: string) { forall i :: 0 <= i < |s| ==> !Control(s[i]) }

  predicate IsItem(s: string) { NoControl(s) && ',' !in s }

  predicate IsValue(v: Value) {
    match v
    case VBool(_) => true
    case VInt(n) => InI64(n)
    case VStr(s) => NoControl(s)
    case VList(xs) => forall i :: 0 <= i < |xs| ==> IsItem(xs[i])
  }

  predicate IsTrail(t: Option<string>) { t == None || IsNote(t.value) }

  predicate AllNotes(xs: seq<string>) { forall i :: 0 <= i < |xs| ==> IsNote(xs[i]) }

  predicate IsRow(r: Row) { Ident(r.key) && IsValue(r.value) && IsTrail(r.trail) && AllNotes(r.lead) }

  predicate IsContent(c: Content) {
    && Ident(c.name) && (c.arg == None || (c.arg.value != "" && NoControl(c.arg.value)))
    && IsTrail(c.trail) && AllNotes(c.lead) && AllNotes(c.free)
    && forall i :: 0 <= i < |c.rows| ==> IsRow(c.rows[i])
  }

  // ---------- Strings ----------

  lemma {:induction false} UnescapeEscape(s: string)
    requires NoControl(s)
    ensures Unescape(Escape(s), false) == Some(s)
  {
    if s != "" {
      UnescapeEscape(s[1..]);
      var c, rest := s[0], Escape(s[1..]);
      if c == '"' || c == '\\' {
        assert Escape(s) == ['\\'] + ([c] + rest);
        assert Escape(s)[1..] == [c] + rest && ([c] + rest)[1..] == rest;
      } else {
        assert Escape(s)[1..] == rest;
      }
      assert [c] + s[1..] == s;
    }
  }

  lemma ParseCanonStr(s: string)
    requires NoControl(s)
    ensures ParseString(CanonStr(s)) == Read(Some(s), [])
  {
    UnescapeEscape(s);
    assert CanonStr(s)[1..|CanonStr(s)| - 1] == Escape(s);
  }

  lemma {:induction false} EscapeText(s: string, c: char)
    requires c != '\\' && c !in s
    ensures c !in Escape(s)
  {
    if s != "" {
      EscapeText(s[1..], c);
    }
  }

  lemma {:induction false} EscapeLine(s: string)
    requires NoControl(s)
    ensures OneLine(Escape(s))
  {
    if s != "" {
      EscapeLine(s[1..]);
    }
  }

  /** What escaping makes of one character. */
  function EscapeChar(c: char): string { if c == '"' || c == '\\' then ['\\', c] else [c] }

  lemma EscapeNext(s: string, t: string)
    requires s != ""
    ensures Escape(s) + t == EscapeChar(s[0]) + (Escape(s[1..]) + t)
  {
    EscapeFirst(s);
    hide Escape, EscapeChar;
    Assoc(EscapeChar(s[0]), Escape(s[1..]), t);
  }

  lemma EscapeFirst(s: string)
    requires s != ""
    ensures Escape(s) == EscapeChar(s[0]) + Escape(s[1..])
  {
  }

  lemma StringEndChar(c: char, t: string)
    ensures StringEnd(EscapeChar(c) + t) == Shift(|EscapeChar(c)|, StringEnd(t))
  {
    var all := EscapeChar(c) + t;
    if c == '"' || c == '\\' {
      assert all[2..] == t;
    } else {
      assert all[1..] == t;
    }
  }

  /** The scanner of block heads finds the closing quote of a canonical string. */
  lemma {:induction false} StringEndEscape(s: string, rest: string)
    ensures StringEnd(Escape(s) + ("\"" + rest)) == Some(|Escape(s)| + 1)
  {
    var t := "\"" + rest;
    if s == "" {
      assert Escape(s) + t == t;
    } else {
      StringEndEscape(s[1..], rest);
      EscapeNext(s, t);
      StringEndChar(s[0], Escape(s[1..]) + t);
    }
  }

  // ---------- Cutting off comments ----------

  function Prepend(s: string, cut: Cut): Cut { if cut.Open? then Open else cut.(code := s + cut.code) }

  lemma PrependCons(c: char, s: string, cut: Cut)
    ensures Cons(c, Prepend(s, cut)) == Prepend([c] + s, cut)
  {
    if cut.Cut? {
      assert [c] + (s + cut.code) == [c] + s + cut.code;
    }
  }

  lemma PrependTwice(a: string, b: string, cut: Cut)
    ensures Prepend(a, Prepend(b, cut)) == Prepend(a + b, cut)
  {
    if cut.Cut? {
      assert a + (b + cut.code) == a + b + cut.code;
    }
  }

  /** A character inside a string. */
  lemma CutInner(c: char, t: string, esc: bool)
    ensures CutLine([c] + t, true, esc) == Cons(c, CutLine(t, c != '"' || esc, c == '\\' && !esc))
  {
    HeadTail(c, t);
  }

  /** An opening quote. */
  lemma CutQuote(t: string)
    ensures CutLine(['"'] + t, false, false) == Cons('"', CutLine(t, true, false))
  {
    HeadTail('"', t);
  }

  /** A character of code. */
  lemma CutCode(c: char, t: string)
    requires c != '"' && c != '/' && c != '#'
    ensures CutLine([c] + t, false, false) == Cons(c, CutLine(t, false, false))
  {
    HeadTail(c, t);
  }

  /** No quote, slash or hash: such text is all code. */
  predicate IsPlain(s: string) { '"' !in s && '/' !in s && '#' !in s }

  lemma {:induction false} CutPlain(s: string, rest: string)
    requires IsPlain(s)
    ensures CutLine(s + rest, false, false) == Prepend(s, CutLine(rest, false, false))
  {
    if s == "" {
      AppendNothing(rest);
      PrependNothing(CutLine(rest, false, false));
    } else {
      CutPlain(s[1..], rest);
      hide CutLine, Prepend, Cons;
      CutCode(s[0], s[1..] + rest);
      Assoc([s[0]], s[1..], rest);
      assert s == [s[0]] + s[1..];
      PrependCons(s[0], s[1..], CutLine(rest, false, false));
    }
  }

  lemma PrependNothing(cut: Cut)
    ensures Prepend("", cut) == cut
  {
  }

  lemma CutEscaped(c: char, t: string)
    ensures CutLine(['\\', c] + t, true, false) == Prepend(['\\', c], CutLine(t, true, false))
  {
    var cut := CutLine(t, true, false);
    CutInner('\\', [c] + t, false);
    CutInner(c, t, true);
    PrependOne(c, cut);
    hide CutLine, Prepend, Cons;
    PrependCons('\\', [c], cut);
    TwoChars('\\', c, t);
  }

  lemma TwoChars(a: char, b: char, t: string)
    ensures [a, b] + t == [a] + ([b] + t) && [a] + [b] == [a, b]
  {
    Assoc([a], [b], t);
  }

  lemma PrependOne(c: char, cut: Cut)
    ensures Prepend([c], cut) == Cons(c, cut)
  {
  }

  lemma CutStringChar(c: char, t: string)
    ensures CutLine(EscapeChar(c) + t, true, false) == Prepend(EscapeChar(c), CutLine(t, true, false))
  {
    if c == '"' || c == '\\' {
      CutEscaped(c, t);
    } else {
      CutInner(c, t, false);
      PrependOne(c, CutLine(t, true, false));
    }
  }

  lemma {:induction false} CutInString(s: string, rest: string)
    ensures CutLine(Escape(s) + ("\"" + rest), true, false) == Prepend(Escape(s) + "\"", CutLine(rest, false, false))
  {
    var cut := CutLine(rest, false, false);
    if s == "" {
      CutInner('"', rest, false);
      PrependOne('"', cut);
      AppendNothing("\"");
      AppendNothing("\"" + rest);
    } else {
      CutInString(s[1..], rest);
      EscapeNext(s, "\"" + rest);
      EscapeNext(s, "\"");
      hide CutLine, Prepend, Cons, Escape, EscapeChar;
      CutStringChar(s[0], Escape(s[1..]) + ("\"" + rest));
      PrependTwice(EscapeChar(s[0]), Escape(s[1..]) + "\"", cut);
    }
  }

  lemma CutCanonStr(s: string, rest: string)
    ensures CutLine(CanonStr(s) + rest, false, false) == Prepend(CanonStr(s), CutLine(rest, false, false))
  {
    CutInString(s, rest);
    CanonStrParts(s, rest);
    hide CutLine, Prepend, Cons, Escape, CanonStr;
    CutQuote(Escape(s) + ("\"" + rest));
    PrependCons('"', Escape(s) + "\"", CutLine(rest, false, false));
  }

  lemma CanonStrParts(s: string, rest: string)
    ensures CanonStr(s) == ['"'] + (Escape(s) + "\"")
    ensures CanonStr(s) + rest == ['"'] + (Escape(s) + ("\"" + rest))
  {
    var e := Escape(s);
    hide Escape;
    Assoc("\"", e, "\"");
    Assoc3("\"", e, "\"", rest);
  }

  lemma JoinFirst(xs: seq<string>)
    requires |xs| > 1
    ensures Join(CanonStrs(xs), ", ") == CanonStr(xs[0]) + (", " + Join(CanonStrs(xs[1..]), ", "))
  {
    CanonStrsTail(xs);
    hide CanonStr;
    Assoc(CanonStr(xs[0]), ", ", Join(CanonStrs(xs[1..]), ", "));
  }

  lemma CanonStrsTail(xs: seq<string>)
    requires xs != []
    ensures CanonStrs(xs)[1..] == CanonStrs(xs[1..])
  {
  }

  /** A list's inside, from its first item on. */
  lemma {:induction false} CutItems(xs: seq<string>, rest: string)
    requires xs != []
    ensures CutLine(Join(CanonStrs(xs), ", ") + rest, false, false)
         == Prepend(Join(CanonStrs(xs), ", "), CutLine(rest, false, false))
  {
    if |xs| == 1 {
      CutCanonStr(xs[0], rest);
    } else {
      CutItems(xs[1..], rest);
      JoinFirst(xs);
      CommaIsPlain();
      hide CutLine, Prepend, Join, CanonStrs, CanonStr, IsPlain;
      var more, cut := Join(CanonStrs(xs[1..]), ", "), CutLine(rest, false, false);
      CutPlain(", ", more + rest);
      CutCanonStr(xs[0], ", " + (more + rest));
      PrependTwice(", ", more, cut);
      PrependTwice(CanonStr(xs[0]), ", " + more, cut);
      Assoc3(CanonStr(xs[0]), ", ", more, rest);
    }
  }

  lemma CommaIsPlain()
    ensures IsPlain(", ") && IsPlain("[") && IsPlain("]") && IsPlain(" ") && IsPlain(" {") && IsPlain(" = ")
    ensures IsPlain("true") && IsPlain("false") && IsPlain("") && IsPlain("  ") && IsPlain(INDENT)
  {
  }

  lemma CutValue(v: Value, rest: string)
    ensures CutLine(CanonValue(v) + rest, false, false) == Prepend(CanonValue(v), CutLine(rest, false, false))
  {
    hide CutLine, Prepend, CanonStr, CanonInt;
    CommaIsPlain();
    match v
    case VBool(b) => CutPlain(CanonValue(v), rest);
    case VInt(n) =>
      CanonIntShape(n);
      CutPlain(CanonInt(n), rest);
    case VStr(s) => CutCanonStr(s, rest);
    case VList(xs) => CutList(xs, rest);
  }

  function Items(xs: seq<string>): string { if xs == [] then "" else Join(CanonStrs(xs), ", ") }

  lemma CanonListParts(xs: seq<string>)
    ensures CanonValue(VList(xs)) == "[" + (Items(xs) + "]")
  {
    Assoc("[", Items(xs), "]");
  }

  lemma CutList(xs: seq<string>, rest: string)
    ensures CutLine(CanonValue(VList(xs)) + rest, false, false)
      == Prepend(CanonValue(VList(xs)), CutLine(rest, false, false))
  {
    CommaIsPlain();
    if xs == [] {
      CutPlain("", "]" + rest);
    } else {
      CutItems(xs, "]" + rest);
    }
    CanonListParts(xs);
    hide CutLine, Prepend, CanonValue;
    CutBrackets(Items(xs), rest);
  }

  lemma CutBrackets(items: string, rest: string)
    requires CutLine(items + ("]" + rest), false, false) == Prepend(items, CutLine("]" + rest, false, false))
    ensures CutLine("[" + (items + "]") + rest, false, false)
      == Prepend("[" + (items + "]"), CutLine(rest, false, false))
  {
    CommaIsPlain();
    hide CutLine, Prepend, IsPlain;
    var cut := CutLine(rest, false, false);
    CutPlain("]", rest);
    CutPlain("[", items + ("]" + rest));
    PrependTwice(items, "]", cut);
    PrependTwice("[", items + "]", cut);
    Assoc3("[", items, "]", rest);
  }

  /** What follows the code of a canonical line is cut off and kept. */
  lemma CutTrail(trail: Option<string>)
    requires IsTrail(trail)
    ensures CutLine(Trail(trail), false, false) == Cut(if trail == None then "" else "  ", trail, false)
  {
    if trail != None {
      CommaIsPlain();
      CutComment("  ", trail.value);
    }
  }

  lemma CutComment(pad: string, text: string)
    requires IsPlain(pad) && IsNote(text)
    ensures CutLine(Comment(pad, text), false, false) == Cut(pad, Some(text), false)
  {
    CutSlashes(text);
    CutPlain(pad, "//" + (" " + text));
    AppendNothing(pad);
  }

  lemma CutSlashes(text: string)
    requires IsNote(text)
    ensures CutLine("//" + (" " + text), false, false) == Cut("", Some(text), false)
  {
    SlashRest(text);
    StripSpaced(text);
  }

  lemma SlashRest(text: string)
    ensures var s := "//" + (" " + text); |s| > 1 && s[0] == '/' && s[1] == '/' && s[2..] == " " + text
  {
  }

  lemma StripSpaced(text: string)
    requires Trimmed(text)
    ensures Strip(" " + text) == text
  {
    StripPadded(" ", text, "");
    AppendNothing(" " + text);
  }

  // ---------- Integers ----------

  lemma {:induction false} DecimalDigits(n: nat)
    ensures Digits(Decimal(n)) && NatOf(Decimal(n)) == n
    ensures n > 0 ==> Decimal(n)[0] != '0'
    ensures n < 10 ==> |Decimal(n)| == 1
  {
    var d := Decimal(n);
    var last := ('0' as int + n % 10) as char;
    assert Digit(last);
    if n < 10 {
      assert d == [last] && d[..|d| - 1] == "";
    } else {
      DecimalDigits(n / 10);
      assert d[..|d| - 1] == Decimal(n / 10);
    }
  }

  lemma CanonIntShape(n: int)
    ensures IsInt(CanonInt(n)) && IntOf(CanonInt(n)) == n
    ensures forall i :: 0 <= i < |CanonInt(n)| ==> Digit(CanonInt(n)[i]) || CanonInt(n)[i] == '-'
  {
    var m: nat := if n < 0 then -n else n;
    DecimalDigits(m);
    if n < 0 {
      assert CanonInt(n)[1..] == Decimal(m);
    }
  }

  // ---------- Values ----------

  /** One more item. */
  lemma ParseListNext(parts: seq<string>, x: string, xs: seq<string>)
    requires parts != [] && ParseString(Strip(parts[0])) == Read(Some(x), [])
    requires ParseList(parts[1..]) == Read(Some(xs), [])
    ensures ParseList(parts) == Read(Some([x] + xs), [])
  {
    hide Strip, ParseString;
  }

  /** A piece between commas that reads as the item. */
  predicate Piece(part: string, x: string) { NoControl(x) && Strip(part) == CanonStr(x) && ',' !in part }

  lemma PieceReads(part: string, x: string)
    requires Piece(part, x)
    ensures ParseString(Strip(part)) == Read(Some(x), []) && Strip(part) != "" && ',' !in part
  {
    hide Strip, ParseString;
    ParseCanonStr(x);
  }

  lemma {:induction false} ParseItemList(xs: seq<string>, parts: seq<string>)
    requires |parts| == |xs| && forall i :: 0 <= i < |xs| ==> Piece(parts[i], xs[i])
    ensures ParseList(parts) == Read(Some(xs), [])
  {
    if xs != [] {
      hide ParseList, ParseString, Strip, Piece;
      PieceReads(parts[0], xs[0]);
      ParseItemList(xs[1..], parts[1..]);
      ParseListNext(parts, xs[0], xs[1..]);
      FirstAndRest(xs);
    }
  }

  /** Items with a space in front. */
  function Padded(xs: seq<string>): (parts: seq<string>)
    ensures |parts| == |xs|
  {
    seq(|xs|, i requires 0 <= i < |xs| => " " + CanonStr(xs[i]))
  }

  /** Joined with a comma and a space, then cut at commas: all but the first item have
      a space in front. */
  function Spaced(xs: seq<string>): (parts: seq<string>)
    requires xs != []
    ensures |parts| == |xs|
  {
    [CanonStr(xs[0])] + Padded(xs[1..])
  }

  lemma JoinSpaced(xs: seq<string>)
    requires xs != []
    ensures Join(CanonStrs(xs), ", ") == Join(Spaced(xs), ",")
  {
    if |xs| > 1 {
      JoinPadded(xs[1..]);
      assert CanonStrs(xs)[1..] == CanonStrs(xs[1..]) && Spaced(xs)[1..] == Padded(xs[1..]);
      assert ", " == "," + " ";
    }
  }

  lemma {:induction false} JoinPadded(xs: seq<string>)
    requires xs != []
    ensures Join(Padded(xs), ",") == " " + Join(CanonStrs(xs), ", ")
  {
    if |xs| > 1 {
      JoinPadded(xs[1..]);
      assert CanonStrs(xs)[1..] == CanonStrs(xs[1..]) && Padded(xs)[1..] == Padded(xs[1..]);
      CommaSpace(CanonStr(xs[0]), Join(CanonStrs(xs[1..]), ", "));
    }
  }

  lemma CommaSpace(a: string, b: string)
    ensures " " + a + "," + (" " + b) == " " + (a + ", " + b)
  {
  }

  lemma CanonStrShape(s: string)
    ensures Trimmed(CanonStr(s)) && CanonStr(s) != ""
    ensures ',' !in s ==> ',' !in CanonStr(s)
    ensures NoControl(s) ==> OneLine(CanonStr(s))
  {
    if ',' !in s {
      EscapeText(s, ',');
    }
    if NoControl(s) {
      EscapeLine(s);
    }
  }

  lemma {:induction false} JoinEnds(parts: seq<string>, sep: string)
    requires parts != [] && forall i :: 0 <= i < |parts| ==> parts[i] != ""
    ensures Join(parts, sep) != ""
    ensures Join(parts, sep)[0] == parts[0][0]
    ensures var last := parts[|parts| - 1]; Join(parts, sep)[|Join(parts, sep)| - 1] == last[|last| - 1]
  {
    if |parts| > 1 {
      JoinEnds(parts[1..], sep);
    }
  }

  lemma NotIn(c: char, a: string, b: string)
    requires c !in a && c !in b
    ensures c !in a + b
  {
  }

  lemma SpacedAt(xs: seq<string>, i: nat)
    requires i < |xs|
    ensures Spaced(xs)[i] == if i == 0 then CanonStr(xs[i]) else " " + CanonStr(xs[i])
  {
    hide CanonStr;
  }

  /** Each of the pieces between commas is an item. */
  lemma SpacedPiece(xs: seq<string>, i: nat)
    requires i < |xs| && IsItem(xs[i])
    ensures Piece(Spaced(xs)[i], xs[i])
  {
    hide Strip, CanonStr, Trimmed, Spaced, NoControl;
    var q := CanonStr(xs[i]);
    CanonStrShape(xs[i]);
    SpacedAt(xs, i);
    if i == 0 {
      StripTrimmed(q);
    } else {
      StripSpaced(q);
      NotIn(',', " ", q);
    }
  }

  lemma ParseItemsOf(body: string, parts: seq<string>, r: Read<seq<string>>)
    requires body != "" && Split(body, ',') == parts && Strip(parts[|parts| - 1]) != "" && ParseList(parts) == r
    ensures ParseItems(body) == r
  {
    hide Split, Strip, ParseList;
  }

  lemma ParseCanonItems(xs: seq<string>)
    requires xs != [] && forall i :: 0 <= i < |xs| ==> IsItem(xs[i])
    ensures ParseItems(Join(CanonStrs(xs), ", ")) == Read(Some(xs), [])
  {
    hide Trimmed, Strip, CanonStr, Spaced, Join, CanonStrs, Split, ParseList, ParseItems, Piece, IsItem;
    ItemsTrimmed(xs);
    ItemPieces(xs);
    JoinSpaced(xs);
    ParsePieces(xs, Spaced(xs), Join(CanonStrs(xs), ", "));
  }

  lemma ItemPieces(xs: seq<string>)
    requires xs != [] && forall i :: 0 <= i < |xs| ==> IsItem(xs[i])
    ensures forall i :: 0 <= i < |xs| ==> Piece(Spaced(xs)[i], xs[i])
  {
    hide Spaced, Piece, IsItem;
    forall i | 0 <= i < |xs| ensures Piece(Spaced(xs)[i], xs[i]) {
      SpacedPiece(xs, i);
    }
  }

  lemma ParsePieces(xs: seq<string>, parts: seq<string>, body: string)
    requires xs != [] && |parts| == |xs| && forall i :: 0 <= i < |xs| ==> Piece(parts[i], xs[i])
    requires body == Join(parts, ",") && body != ""
    ensures ParseItems(body) == Read(Some(xs), [])
  {
    hide Strip, Join, Split, ParseList, ParseItems, Piece;
    PiecesSplit(xs, parts);
    ParseItemList(xs, parts);
    ParseItemsOf(body, parts, Read(Some(xs), []));
  }

  lemma PiecesSplit(xs: seq<string>, parts: seq<string>)
    requires xs != [] && |parts| == |xs| && forall i :: 0 <= i < |xs| ==> Piece(parts[i], xs[i])
    ensures Split(Join(parts, ","), ',') == parts && Strip(parts[|parts| - 1]) != ""
  {
    hide Strip, Join, Split, Piece;
    forall i | 0 <= i < |parts| ensures ',' !in parts[i] {
      PieceReads(parts[i], xs[i]);
    }
    PieceReads(parts[|xs| - 1], xs[|xs| - 1]);
    SplitJoin(parts, ',');
  }

  lemma ItemsTrimmed(xs: seq<string>)
    requires xs != []
    ensures Trimmed(Join(CanonStrs(xs), ", ")) && Join(CanonStrs(xs), ", ") != ""
  {
    JoinEnds(CanonStrs(xs), ", ");
  }

  lemma ParseInside(raw: string, body: string, xs: seq<string>)
    requires |raw| >= 2 && raw[0] == '[' && raw[|raw| - 1] == ']' && raw[1..|raw| - 1] == body
    requires Trimmed(body) && ParseItems(body) == Read(Some(xs), [])
    ensures ParseBrackets(raw) == Read(Some(VList(xs)), [])
  {
    hide Strip, ParseItems;
    StripTrimmed(body);
  }

  lemma ParseBracketed(raw: string, v: Read<Value>)
    requires Trimmed(raw) && raw != "" && raw[0] == '[' && ParseBrackets(raw) == v
    ensures ParseValue(raw) == v
  {
    hide Strip, ParseBrackets, ParseScalar;
    StripTrimmed(raw);
  }

  lemma ParsePlainScalar(raw: string, v: Read<Value>)
    requires Trimmed(raw) && raw != "" && raw[0] != '[' && ParseScalar(raw) == v
    ensures ParseValue(raw) == v
  {
    hide Strip, ParseBrackets, ParseScalar;
    StripTrimmed(raw);
  }

  lemma ListShape(xs: seq<string>)
    ensures var raw := CanonValue(VList(xs));
      |raw| >= 2 && raw[0] == '[' && raw[|raw| - 1] == ']' && raw[1..|raw| - 1] == Items(xs) && Trimmed(raw)
  {
    var items := Items(xs);
    CanonListParts(xs);
    hide Items, CanonValue;
    Brackets(items);
  }

  lemma Brackets(items: string)
    ensures var raw := "[" + (items + "]");
      |raw| >= 2 && raw[0] == '[' && raw[|raw| - 1] == ']' && raw[1..|raw| - 1] == items && Trimmed(raw)
  {
  }

  lemma ParseCanonList(xs: seq<string>)
    requires forall i :: 0 <= i < |xs| ==> IsItem(xs[i])
    ensures ParseValue(CanonValue(VList(xs))) == Read(Some(VList(xs)), [])
  {
    ListShape(xs);
    if xs != [] {
      ParseCanonItems(xs);
      ItemsTrimmed(xs);
    }
    assert Trimmed(Items(xs)) && ParseItems(Items(xs)) == Read(Some(xs), []);
    hide ParseItems, ParseBrackets, ParseValue, Items, CanonValue, Trimmed;
    ParseInside(CanonValue(VList(xs)), Items(xs), xs);
    ParseBracketed(CanonValue(VList(xs)), Read(Some(VList(xs)), []));
  }

  lemma ParseQuotes(raw: string, s: string)
    requires raw != "" && raw[0] == '"' && Trimmed(raw) && ParseString(raw) == Read(Some(s), [])
    ensures ParseValue(raw) == Read(Some(VStr(s)), [])
  {
    ParseQuoted(raw, s);
    hide ParseScalar, ParseValue, ParseString;
    ParsePlainScalar(raw, Read(Some(VStr(s)), []));
  }

  lemma ParseQuoted(raw: string, s: string)
    requires raw != "" && raw[0] == '"' && ParseString(raw) == Read(Some(s), [])
    ensures ParseScalar(raw) == Read(Some(VStr(s)), [])
  {
    hide ParseString;
  }

  lemma ParseNumber(raw: string)
    requires Trimmed(raw) && IsInt(raw) && InI64(IntOf(raw))
    ensures ParseValue(raw) == Read(Some(VInt(IntOf(raw))), [])
  {
    hide Strip;
    StripTrimmed(raw);
  }

  lemma ParseWord(b: bool)
    ensures ParseValue(if b then "true" else "false") == Read(Some(VBool(b)), [])
  {
    WordShape();
    hide ParseScalar, ParseValue, Trimmed;
    ParsePlainScalar(if b then "true" else "false", Read(Some(VBool(b)), []));
  }

  lemma WordShape()
    ensures Trimmed("true") && Trimmed("false")
    ensures ParseScalar("true") == Read(Some(VBool(true)), []) && ParseScalar("false") == Read(Some(VBool(false)), [])
  {
  }

  lemma ParseCanonValue(v: Value)
    requires IsValue(v)
    ensures ParseValue(CanonValue(v)) == Read(Some(v), [])
  {
    match v
    case VBool(b) => ParseWord(b);
    case VInt(n) =>
      CanonIntShape(n);
      ParseNumber(CanonInt(n));
    case VStr(s) =>
      CanonStrShape(s);
      ParseCanonStr(s);
      ParseQuotes(CanonStr(s), s);
    case VList(xs) => ParseCanonList(xs);
  }

  lemma CanonValueShape(v: Value)
    requires IsValue(v)
    ensures CanonValue(v) != "" && Trimmed(CanonValue(v)) && OneLine(CanonValue(v))
  {
    match v
    case VBool(b) =>
    case VInt(n) => CanonIntShape(n);
    case VStr(s) => CanonStrShape(s);
    case VList(xs) =>
      if xs != [] {
        JoinLine(xs);
      }
  }

  lemma {:induction false} JoinLine(xs: seq<string>)
    requires xs != [] && forall i :: 0 <= i < |xs| ==> NoControl(xs[i])
    ensures OneLine(Join(CanonStrs(xs), ", "))
  {
    CanonStrShape(xs[0]);
    if |xs| > 1 {
      JoinLine(xs[1..]);
      assert CanonStrs(xs)[1..] == CanonStrs(xs[1..]);
    }
  }

  // ---------- Heads and fields ----------

  lemma {:induction false} IdentRunOf(s: string, rest: string)
    requires (forall i :: 0 <= i < |s| ==> IdentChar(s[i])) && rest != "" && !IdentChar(rest[0])
    ensures IdentRun(s + rest) == |s|
  {
    if s == "" {
      assert s + rest == rest;
    } else {
      IdentRunOf(s[1..], rest);
      assert (s + rest)[1..] == s[1..] + rest;
    }
  }

  /** An identifier, then something that is not part of one. */
  lemma IdentThen(s: string, rest: string)
    requires Ident(s) && rest != "" && !IdentChar(rest[0])
    ensures IdentLen(s + rest) == |s| && (s + rest)[..|s|] == s && (s + rest)[|s|..] == rest
  {
    IdentRunOf(s, rest);
  }

  lemma ParsePairOf(line: string, n: nat, rest: string, raw: string)
    requires 0 < n <= |line| && IdentLen(line) == n && StripLeft(line[n..]) == rest
    requires rest != "" && rest[0] == '=' && Strip(rest[1..]) == raw && raw != ""
    ensures ParsePair(line) == Some(Pair(line[..n], raw))
  {
    hide IdentLen, Strip, StripLeft;
  }

  lemma StripEquals(v: string)
    requires v != "" && Trimmed(v)
    ensures StripLeft(" = " + v) == "= " + v && Strip(("= " + v)[1..]) == v
  {
    EqualsParts(v);
    hide Strip, StripLeft;
    StripLeftPad(" ", "= " + v);
    StripSpaced(v);
  }

  lemma EqualsParts(v: string)
    ensures " = " + v == " " + ("= " + v) && ("= " + v)[1..] == " " + v && ("= " + v)[0] == '='
  {
  }

  lemma ParseRowCode(r: Row)
    requires IsRow(r)
    ensures ParsePair(RowCode(r)) == Some(Pair(r.key, CanonValue(r.value)))
  {
    var v := CanonValue(r.value);
    CanonValueShape(r.value);
    hide CanonValue, IsValue, ParsePair, Strip, StripLeft, IdentLen, Ident, Trimmed;
    EqualsParts(v);
    IdentThen(r.key, " = " + v);
    StripEquals(v);
    ParsePairOf(r.key + (" = " + v), |r.key|, "= " + v, v);
  }

  lemma ParseHeadCode(c: Content)
    requires IsContent(c)
    ensures ParseHead(HeadCode(c)) == Some(Head(c.name, if c.arg == None then None
      else Some(CanonStr(c.arg.value)), true))
  {
    HeadParts(c);
    hide ParseHead, HeadCode, CanonStr;
    if c.arg == None {
      ParseBareHead(c.name);
    } else {
      ParseArgHead(c.name, c.arg.value);
    }
  }

  lemma HeadParts(c: Content)
    ensures HeadCode(c) == if c.arg == None then c.name + " {" else c.name + (" " + (CanonStr(c.arg.value) + " {"))
  {
    hide CanonStr;
    AppendNothing(" {");
    if c.arg != None {
      Assoc(" ", CanonStr(c.arg.value), " {");
    }
  }

  lemma ParseHeadOf(line: string, n: nat, rest: string, h: HeadRest)
    requires 0 < n < |line| && IdentLen(line) == n && line[n] == ' ' && StripLeft(line[n..]) == rest
    requires ParseHeadRest(rest) == Some(h)
    ensures ParseHead(line) == Some(Head(line[..n], if h.NoArg? then None else Some(h.arg), true))
  {
    hide IdentLen, StripLeft, ParseHeadRest;
  }

  lemma ParseBareHead(name: string)
    requires Ident(name)
    ensures ParseHead(name + " {") == Some(Head(name, None, true))
  {
    assert |name| > 0 && " {" == " " + "{";
    hide ParseHead, ParseHeadRest, IdentLen, StripLeft, Ident;
    BraceRest();
    NameThenSpace(name, "{");
    ParseHeadOf(name + " {", |name|, "{", NoArg);
  }

  lemma BraceRest()
    ensures StripLeft(" {") == "{" && ParseHeadRest("{") == Some(NoArg)
  {
    StripLeftPad(" ", "{");
    assert " " + "{" == " {";
  }

  lemma ParseArgHead(name: string, a: string)
    requires Ident(name)
    ensures ParseHead(name + (" " + (CanonStr(a) + " {"))) == Some(Head(name, Some(CanonStr(a)), true))
  {
    var q := CanonStr(a) + " {";
    assert q[0] == '"' && |name| > 0;
    hide ParseHead, ParseHeadRest, IdentLen, StripLeft, Ident, CanonStr;
    ParseArgRest(a);
    NameThenSpace(name, q);
    ParseHeadOf(name + (" " + q), |name|, q, WithArg(CanonStr(a)));
  }

  lemma NameThenSpace(name: string, q: string)
    requires Ident(name) && q != "" && !Space(q[0])
    ensures var line := name + (" " + q);
      IdentLen(line) == |name| < |line| && line[|name|] == ' ' && line[..|name|] == name
        && StripLeft(line[|name|..]) == q
  {
    hide IdentLen, StripLeft, Ident;
    IdentThen(name, " " + q);
    StripLeftPad(" ", q);
  }

  lemma ArgSlices(a: string)
    ensures var q, k := CanonStr(a) + " {", |CanonStr(a)|;
      q[1..] == Escape(a) + ("\"" + " {") && q[..k] == CanonStr(a) && q[k..] == " {"
  {
  }

  lemma ParseRestOf(rest: string, k: nat, arg: string)
    requires rest != "" && rest[0] == '"' && StringEnd(rest[1..]) == Some(k) && k + 1 <= |rest|
    requires rest[..k + 1] == arg && Opens(StripLeft(rest[k + 1..]))
    ensures ParseHeadRest(rest) == Some(WithArg(arg))
  {
    hide StringEnd, StripLeft;
  }

  lemma ParseArgRest(a: string)
    ensures ParseHeadRest(CanonStr(a) + " {") == Some(WithArg(CanonStr(a)))
  {
    BraceRest();
    assert Opens("{");
    assert |CanonStr(a)| == |Escape(a)| + 2 && CanonStr(a)[0] == '"';
    hide StringEnd, StripLeft, CanonStr, Escape, ParseHeadRest, Opens;
    ArgSlices(a);
    StringEndEscape(a, " {");
    ParseRestOf(CanonStr(a) + " {", |Escape(a)| + 1, CanonStr(a));
  }

  /** Neither code starts or ends with white space, or holds a line break. */
  lemma CodeShape(c: Content)
    requires IsContent(c)
    ensures Trimmed(HeadCode(c)) && HeadCode(c) != "" && OneLine(HeadCode(c)) && HeadCode(c) != "}"
  {
    IdentLine(c.name);
    if c.arg != None {
      CanonStrShape(c.arg.value);
    }
  }

  lemma RowCodeShape(r: Row)
    requires IsRow(r)
    ensures Trimmed(RowCode(r)) && RowCode(r) != "" && OneLine(RowCode(r)) && RowCode(r) != "}"
  {
    IdentLine(r.key);
    CanonValueShape(r.value);
  }

  lemma IdentLine(s: string)
    requires Ident(s)
    ensures OneLine(s) && IsPlain(s) && !Space(s[0])
  {
  }

  lemma CutRow(r: Row)
    requires IsRow(r)
    ensures CutLine(RowLine(r), false, false)
         == Cut(INDENT + (RowCode(r) + if r.trail == None then "" else "  "), r.trail, false)
  {
    var t, v := Trail(r.trail), CanonValue(r.value);
    CutTrail(r.trail);
    IdentLine(r.key);
    CommaIsPlain();
    var cut := CutLine(t, false, false);
    hide CutLine, Trail, CanonValue, IsPlain, Ident, IsValue;
    CutValue(r.value, t);
    CutPlain(" = ", v + t);
    CutPlain(r.key, " = " + (v + t));
    Assoc3(r.key, " = ", v, t);
    CutPlain(INDENT, r.key + (" = " + v) + t);
    PrependTwice(" = ", v, cut);
    PrependTwice(r.key, " = " + v, cut);
    PrependTwice(INDENT, r.key + (" = " + v), cut);
    Assoc(INDENT, r.key + (" = " + v), cut.code);
  }

  lemma CutHead(c: Content)
    requires IsContent(c)
    ensures CutLine(HeadLine(c), false, false)
         == Cut(HeadCode(c) + (if c.trail == None then "" else "  "), c.trail, false)
  {
    var t := Trail(c.trail);
    CutTrail(c.trail);
    HeadParts(c);
    hide CutLine, Trail, HeadCode, CanonStr;
    if c.arg == None {
      CutBareHead(c.name, t);
    } else {
      CutArgHead(c.name, CanonStr(c.arg.value), c.arg.value, t);
    }
  }

  lemma CutBareHead(name: string, t: string)
    requires Ident(name)
    ensures CutLine(name + " {" + t, false, false) == Prepend(name + " {", CutLine(t, false, false))
  {
    IdentLine(name);
    CommaIsPlain();
    hide CutLine, IsPlain, Prepend;
    CutPlain(" {", t);
    CutPlain(name, " {" + t);
    Assoc(name, " {", t);
    PrependTwice(name, " {", CutLine(t, false, false));
  }

  lemma CutArgHead(name: string, q: string, a: string, t: string)
    requires Ident(name) && q == CanonStr(a)
    ensures CutLine(name + (" " + (q + " {")) + t, false, false)
         == Prepend(name + (" " + (q + " {")), CutLine(t, false, false))
  {
    IdentLine(name);
    CommaIsPlain();
    hide CutLine, IsPlain, Prepend, CanonStr;
    var cut, end := CutLine(t, false, false), " {" + t;
    CutPlain(" {", t);
    CutCanonStr(a, end);
    CutPlain(" ", q + end);
    CutPlain(name, " " + (q + end));
    Assoc4(name, " ", q, " {", t);
    PrependTwice(q, " {", cut);
    PrependTwice(" ", q + " {", cut);
    PrependTwice(name, " " + (q + " {"), cut);
  }
}
