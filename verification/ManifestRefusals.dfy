/** Which values the manifest parser refuses, with which report, and which it loses
    without one. */
module ManifestRefusals {
  import opened Options
  import opened Text
  import opened Manifest
  import opened ManifestRender
  import opened ManifestLaws
  import opened ManifestDiagnostics

  // ---------- Lists ----------

  /** It starts with a quote, and does not end with another one. */
  predicate Loose(raw: string) { raw != "" && raw[0] == '"' && (|raw| == 1 || raw[|raw| - 1] != '"') }

  /** A string, with white space around it. */
  predicate IsItem(p: string) { ParseString(Strip(p)).value != None }

  /** The items of a list up to the first one that is no string, which is reported
      unless it starts with a quote. */
  lemma {:induction false} FirstRefused(parts: seq<string>, i: nat)
    requires i < |parts| && !IsItem(parts[i])
    requires forall j :: 0 <= j < i ==> IsItem(parts[j])
    ensures ParseList(parts) == Read(None, if Loose(Strip(parts[i])) then [] else ["E5048"])
    decreases i
  {
    hide Strip, Unescape;
    if i > 0 {
      assert parts[1..][i - 1] == parts[i];
      FirstRefused(parts[1..], i - 1);
    }
  }

  lemma {:induction false} AllRead(parts: seq<string>)
    requires forall j :: 0 <= j < |parts| ==> IsItem(parts[j])
    ensures ParseList(parts).value != None
  {
    hide Strip, Unescape, ParseString;
    if parts != [] {
      AllRead(parts[1..]);
    }
  }

  /** A comma behind the last item, or no bracket behind it, is reported. */
  lemma ListEnds(body: string)
    requires Trimmed(body) && ',' !in body && body != ""
    ensures ParseValue("[" + (body + ",]")) == Read(None, ["E5048"])
    ensures body[|body| - 1] != ']' ==> ParseValue("[" + body) == Read(None, ["E5040"])
  {
    Bracketed(body + ",");
    CommaAtEnd(body);
    assert Trimmed(body + ",");
    hide Strip, Split, ParseList, ParseBrackets, Trimmed;
    StripTrimmed(body + ",");
    assert (body + ",") + "]" == body + ",]";
    ListEndsOpen(body);
    ItemsEndOpen(body);
  }

  lemma ListEndsOpen(body: string)
    requires Trimmed(body) && body != ""
    ensures body[|body| - 1] != ']' ==> ParseValue("[" + body) == Read(None, ["E5040"])
  {
    var u := "[" + body;
    assert u[0] == '[' && u[|u| - 1] == body[|body| - 1] && Trimmed(u);
    hide Strip, ParseItems;
    StripTrimmed(u);
  }

  lemma Bracketed(items: string)
    ensures
      var r := ParseItems(Strip(items));
      ParseValue("[" + (items + "]")) == Read(if r.value == None then None else Some(VList(r.value.value)), r.codes)
  {
    var t := "[" + (items + "]");
    assert t[0] == '[' && t[|t| - 1] == ']' && t[1..|t| - 1] == items && Trimmed(t);
    hide Strip, ParseItems;
    StripTrimmed(t);
  }

  lemma ItemsEndOpen(body: string)
    requires ',' !in body
    ensures ParseItems(body + ",") == Read(None, ["E5048"])
  {
    CommaAtEnd(body);
    hide Strip, Split, ParseList;
  }

  lemma CommaAtEnd(body: string)
    requires ',' !in body
    ensures Split(body + ",", ',') == [body, ""] && Strip("") == ""
  {
    SplitFirst(body, ',', "");
    assert body + [','] + "" == body + ",";
  }

  // ---------- What is lost ----------

  /** The first item that is no string is loose. */
  ghost predicate LooseItem(parts: seq<string>) {
    exists i :: 0 <= i < |parts| && Loose(Strip(parts[i]))
      && forall j :: 0 <= j < i ==> IsItem(parts[j])
  }

  /** A list whose last item is not empty, with such an item. */
  ghost predicate LooseList(raw: string) {
    && raw != "" && raw[0] == '[' && raw[|raw| - 1] == ']' && |raw| >= 2
    && var body := Strip(raw[1..|raw| - 1]);
    && body != ""
    && var parts := Split(body, ',');
    Strip(parts[|parts| - 1]) != "" && LooseItem(parts)
  }

  lemma FirstOf(parts: seq<string>) returns (i: nat)
    ensures i <= |parts| && (i < |parts| ==> !IsItem(parts[i])) && forall j :: 0 <= j < i ==> IsItem(parts[j])
  {
    hide IsItem;
    i := 0;
    while i < |parts| && IsItem(parts[i])
      invariant i <= |parts| && forall j :: 0 <= j < i ==> IsItem(parts[j])
    {
      i := i + 1;
    }
  }

  lemma ItemsLost(parts: seq<string>)
    ensures ParseList(parts).value == None && ParseList(parts).codes == [] <==> LooseItem(parts)
  {
    forall j | 0 <= j < |parts|
      ensures Loose(Strip(parts[j])) ==> !IsItem(parts[j])
    {
      LooseIsRefused(Strip(parts[j]));
    }
    hide Strip, ParseList, Loose, IsItem;
    var i := FirstOf(parts);
    if i == |parts| {
      AllRead(parts);
    } else {
      FirstRefused(parts, i);
    }
  }

  lemma LooseIsRefused(p: string)
    ensures Loose(p) ==> ParseString(p) == Read(None, [])
  {
  }

  lemma ScalarLost(raw: string)
    ensures ParseScalar(raw).value == None && ParseScalar(raw).codes == [] <==> Loose(raw)
  {
    hide Unescape, IntOf, IsInt, InI64;
  }

  lemma ListLost(raw: string)
    requires raw != "" && raw[0] == '['
    ensures ParseBrackets(raw).value == None && ParseBrackets(raw).codes == [] <==> LooseList(raw)
  {
    hide Strip, Split, ParseList, LooseItem;
    if raw[|raw| - 1] == ']' {
      var body := Strip(raw[1..|raw| - 1]);
      if body != "" {
        ItemsLost(Split(body, ','));
      }
    }
  }

  /** A value that cannot be read is reported, but for two families: a text that starts
      with a quote and does not end with one, and a list with such an item before any
      other that is no string. */
  lemma LostExactly(text: string)
    ensures
      var r, raw := ParseValue(text), Strip(text);
      r.value == None && r.codes == [] <==> Loose(raw) || LooseList(raw)
  {
    var raw := Strip(text);
    hide Strip, ParseBrackets, ParseScalar;
    if raw != "" && raw[0] == '[' {
      ListLost(raw);
    } else {
      ScalarLost(raw);
    }
  }

  /** So a field `key = "a" b` has no report, and is not rendered. */
  lemma FieldIsLost(s: State, line: nat, key: string, a: string, b: string)
    requires Ident(key) && IsPlain(b) && b != "" && Trimmed(b) && s.cur != None && !s.skipping
    ensures
      var after := Step(s, line, key + (" = " + (CanonStr(a) + (" " + b))));
      after == s.(cur := after.cur) && after.cur != None && Rows(after.cur.value.fields) == Rows(s.cur.value.fields)
  {
    var raw := CanonStr(a) + (" " + b);
    var t := key + (" = " + raw);
    LostRaw(a, b);
    LostCuts(key, a, b);
    hide *;
    LostPair(key, raw);
    LostStep(s, line, t, key, raw);
  }

  lemma LostRaw(a: string, b: string)
    requires IsPlain(b) && b != "" && Trimmed(b)
    ensures var raw := CanonStr(a) + (" " + b); raw != "" && Trimmed(raw) && ParseValue(raw) == Read(None, [])
  {
    var raw := CanonStr(a) + (" " + b);
    assert raw[0] == '"' && raw[|raw| - 1] == b[|b| - 1];
    hide CanonStr, Strip;
    StripTrimmed(raw);
    LostExactly(raw);
  }

  lemma LostPair(key: string, raw: string)
    requires Ident(key) && raw != "" && Trimmed(raw)
    ensures ParsePair(key + (" = " + raw)) == Some(Pair(key, raw))
  {
    assert key != "";
    hide ParsePair, Strip, StripLeft, IdentLen, Ident, Trimmed;
    EqualsParts(raw);
    IdentThen(key, " = " + raw);
    StripEquals(raw);
    ParsePairOf(key + (" = " + raw), |key|, "= " + raw, raw);
  }

  lemma LostCuts(key: string, a: string, b: string)
    requires Ident(key) && IsPlain(b) && b != "" && Trimmed(b)
    ensures
      var t := key + (" = " + (CanonStr(a) + (" " + b)));
      CutLine(t, false, false) == Cut(t, None, false) && Strip(t) == t && t != "" && t != "}"
  {
    var q := CanonStr(a) + (" " + b);
    var t := key + (" = " + q);
    IdentLine(key);
    assert IsPlain(" = ") && IsPlain(" " + b);
    assert t[0] == key[0] && t[|t| - 1] == b[|b| - 1] && t[|key|] == ' ';
    hide CutLine, CanonStr, Strip, IsPlain, Ident;
    CutAll(" " + b);
    CutCanonStr(a, " " + b);
    PlainThen(" = ", q);
    PlainThen(key, " = " + q);
    StripTrimmed(t);
  }

  lemma LostStep(s: State, line: nat, t: string, key: string, raw: string)
    requires s.cur != None && !s.skipping && t != "" && t != "}"
    requires CutLine(t, false, false) == Cut(t, None, false) && Strip(t) == t
    requires ParsePair(t) == Some(Pair(key, raw)) && ParseValue(raw) == Read(None, [])
    ensures
      var after := Step(s, line, t);
      after == s.(cur := after.cur) && after.cur != None && Rows(after.cur.value.fields) == Rows(s.cur.value.fields)
  {
    hide CutLine, Strip, ParsePair, ParseValue, Comments, DropEmpty, Texts;
    assert Report(s, line, []) == s;
    var b := s.cur.value;
    var after := AddField(b, key, None, None);
    assert after.fields[..|b.fields|] == b.fields;
  }
}
