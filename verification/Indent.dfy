/** Indentation in the source formatter: one counter that goes up after an opening
    brace and down before a closing one, against the nesting of blocks that span
    lines. */
module Indent {
  import opened Options
  import opened Braces

  /** A line break between the two places of the text. */
  predicate Breaks(src: string, from: nat, to: nat) { exists i :: from <= i < to && i < |src| && src[i] == '\n' }

  /** The braces of a block that spans lines. */
  predicate Multi(ts: seq<Tok>, src: string, pairs: Pairs, o: nat) {
    && o < |ts| == |pairs| && pairs[o].Some? && pairs[o].value < |ts|
    && Breaks(src, ts[o].end, ts[pairs[o].value].start)
  }

  method BlockMultiline(ts: seq<Tok>, src: string, pairs: Pairs, o: nat) returns (multi: bool)
    requires Mutual(ts, pairs) && o < |ts|
    ensures multi <==> Multi(ts, src, pairs, o)
  {
    if pairs[o].None? {
      return false;
    }
    var s, e := ts[o].end, ts[pairs[o].value].start;
    if e > |src| {
      e := |src|;
    }
    var i := s;
    while i < e
      invariant !Breaks(src, s, i)
    {
      if src[i] == '\n' {
        return true;
      }
      i := i + 1;
    }
    multi := false;
  }

  /** The blocks over several lines that token `i` is inside of, by their opening
      braces. */
  ghost function Around(ts: seq<Tok>, src: string, pairs: Pairs, i: nat): set<nat> {
    set o | 0 <= o < i && Multi(ts, src, pairs, o) && i < pairs[o].value
  }

  /** Those that are open before token `i` is looked at. */
  ghost function Open(ts: seq<Tok>, src: string, pairs: Pairs, i: nat): set<nat> {
    set o | 0 <= o < i && Multi(ts, src, pairs, o) && i <= pairs[o].value
  }

  function One(b: bool): nat { if b then 1 else 0 }

  /** At an opening brace. */
  lemma OpenMore(ts: seq<Tok>, src: string, pairs: Pairs, i: nat)
    requires Mutual(ts, pairs) && i < |ts| && ts[i].kind == LBrace
    ensures Open(ts, src, pairs, i) == Around(ts, src, pairs, i)
    ensures |Open(ts, src, pairs, i + 1)| == |Around(ts, src, pairs, i)| + One(Multi(ts, src, pairs, i))
  {
    var own := if Multi(ts, src, pairs, i) then {i} else {};
    assert Open(ts, src, pairs, i + 1) == Around(ts, src, pairs, i) + own;
  }

  /** At a closing brace. */
  lemma OpenLess(ts: seq<Tok>, src: string, pairs: Pairs, i: nat)
    requires Mutual(ts, pairs) && i < |ts| && ts[i].kind == RBrace
    ensures Open(ts, src, pairs, i + 1) == Around(ts, src, pairs, i)
    ensures |Open(ts, src, pairs, i)| ==
      |Around(ts, src, pairs, i)| + One(pairs[i].Some? && Multi(ts, src, pairs, pairs[i].value))
  {
    var own := if pairs[i].Some? && Multi(ts, src, pairs, pairs[i].value) then {pairs[i].value} else {};
    assert Open(ts, src, pairs, i) == Around(ts, src, pairs, i) + own;
  }

  /** At any other token. */
  lemma OpenSame(ts: seq<Tok>, src: string, pairs: Pairs, i: nat)
    requires Mutual(ts, pairs) && i < |ts| && ts[i].kind == OtherTok
    ensures Open(ts, src, pairs, i) == Around(ts, src, pairs, i) == Open(ts, src, pairs, i + 1)
  {
  }

  /** The counter at each token. */
  method Run(ts: seq<Tok>, src: string) returns (at: seq<nat>, ghost pairs: Pairs)
    ensures Matching(ts, pairs) && |at| == |ts|
    ensures forall i :: 0 <= i < |ts| ==> at[i] == |Around(ts, src, pairs, i)|
  {
    var partner := MatchBraces(ts);
    pairs := partner[..];
    hide Nested, Maximal, Around, Open, Multi;
    var indent := 0;
    at := [];
    NoneOpen(ts, src, pairs);
    for i := 0 to |ts|
      invariant partner[..] == pairs && |at| == i
      invariant indent == |Open(ts, src, pairs, i)|
      invariant forall j :: 0 <= j < i ==> at[j] == |Around(ts, src, pairs, j)|
    {
      match ts[i].kind
      case LBrace =>
        OpenMore(ts, src, pairs, i);
        var ml := BlockMultiline(ts, src, partner[..], i);
        at := at + [indent];
        if ml {
          indent := indent + 1;
        }
      case RBrace =>
        OpenLess(ts, src, pairs, i);
        var ml := false;
        if partner[i].Some? {
          ml := BlockMultiline(ts, src, partner[..], partner[i].value);
        }
        // there is always a level to take away
        assert ml ==> indent > 0;
        if ml && indent > 0 {
          indent := indent - 1;
        }
        at := at + [indent];
      case OtherTok =>
        OpenSame(ts, src, pairs, i);
        at := at + [indent];
    }
  }

  lemma NoneOpen(ts: seq<Tok>, src: string, pairs: Pairs)
    ensures Open(ts, src, pairs, 0) == {}
  {
  }

  /** A block's two braces are indented alike. */
  lemma BracesAlign(ts: seq<Tok>, src: string, pairs: Pairs, o: nat)
    requires Matching(ts, pairs) && o < |ts| && pairs[o].Some? && o < pairs[o].value
    ensures Around(ts, src, pairs, o) == Around(ts, src, pairs, pairs[o].value)
  {
  }

  lemma Larger(a: set<nat>, b: set<nat>, o: nat)
    requires a <= b && o in b && o !in a
    ensures |a| < |b|
  {
    assert b == (a + {o}) + (b - (a + {o}));
  }

  /** What is inside a block that spans lines is indented further than its braces. */
  lemma InsideIsDeeper(ts: seq<Tok>, src: string, pairs: Pairs, o: nat, i: nat)
    requires Matching(ts, pairs) && o < i < |ts| && Multi(ts, src, pairs, o) && i < pairs[o].value
    ensures |Around(ts, src, pairs, o)| < |Around(ts, src, pairs, i)|
  {
    hide Breaks, Maximal;
    forall x | x in Around(ts, src, pairs, o)
      ensures x in Around(ts, src, pairs, i)
    {
      assert pairs[o].value < pairs[x].value;
    }
    Larger(Around(ts, src, pairs, o), Around(ts, src, pairs, i), o);
  }
}
