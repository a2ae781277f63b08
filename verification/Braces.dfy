/** The source formatter's braces: which one closes which, and how far each token is
    indented. */
module Braces {
  import opened Options

  datatype Kind = LBrace | RBrace | OtherTok

  /** A token and where it is in the source text. */
  datatype Tok = Tok(kind: Kind, start: nat, end: nat)

  type Pairs = seq<Option<nat>>

  // ---------- What a matching is ----------

  predicate IsBrace(k: Kind) { k != OtherTok }

  /** Partners are mutual, an opening brace before a closing one; only braces have
      any. */
  ghost predicate Mutual(ts: seq<Tok>, pairs: Pairs) {
    && |pairs| == |ts|
    && forall i :: 0 <= i < |ts| && pairs[i].Some? ==>
      var c := pairs[i].value;
      && c < |ts| && pairs[c] == Some(i)
      && if i < c then ts[i].kind == LBrace && ts[c].kind == RBrace
         else c < i && ts[c].kind == LBrace && ts[i].kind == RBrace
  }

  /** Every brace inside a block has its partner inside it, too. */
  ghost predicate Nested(ts: seq<Tok>, pairs: Pairs)
    requires Mutual(ts, pairs)
  {
    forall i, j :: 0 <= i < j < |ts| && pairs[i].Some? && j < pairs[i].value && IsBrace(ts[j].kind) ==>
      pairs[j].Some? && i < pairs[j].value < pairs[i].value
  }

  /** No opening brace is left over before a closing one that is left over. */
  ghost predicate Maximal(ts: seq<Tok>, pairs: Pairs)
    requires |pairs| == |ts|
  {
    forall i, j :: 0 <= i < j < |ts| && ts[i].kind == LBrace && ts[j].kind == RBrace && pairs[i].None? ==>
      pairs[j].Some?
  }

  ghost predicate Matching(ts: seq<Tok>, pairs: Pairs) {
    Mutual(ts, pairs) && Nested(ts, pairs) && Maximal(ts, pairs)
  }

  /** Two matchings agree on a block, given that they do on all blocks inside it. */
  lemma {:induction false} SameBlock(ts: seq<Tok>, p: Pairs, q: Pairs, i: nat)
    requires Matching(ts, p) && Matching(ts, q) && i < |ts| && p[i].Some? && i < p[i].value
    ensures q[i] == p[i]
    decreases p[i].value - i
  {
    var c := p[i].value;
    forall a | i < a < c && IsBrace(ts[a].kind)
      ensures q[a] == p[a]
    {
      SameBlock(ts, p, q, if p[a].value > a then a else p[a].value);
    }
  }

  /** There is one matching only. */
  lemma MatchingIsUnique(ts: seq<Tok>, p: Pairs, q: Pairs)
    requires Matching(ts, p) && Matching(ts, q)
    ensures p == q
  {
    forall i | 0 <= i < |ts|
      ensures p[i] == q[i]
    {
      if p[i].Some? {
        SameBlock(ts, p, q, if i < p[i].value then i else p[i].value);
      } else if q[i].Some? {
        SameBlock(ts, q, p, if i < q[i].value then i else q[i].value);
      }
    }
  }

  // ---------- Finding it ----------

  /** Where the search stands before token `i`: `stack` holds the braces still open. */
  ghost predicate Searching(ts: seq<Tok>, pairs: Pairs, stack: seq<nat>, i: nat) {
    && i <= |ts| && Mutual(ts, pairs) && Nested(ts, pairs)
    && (forall j :: i <= j < |ts| ==> pairs[j].None?)
    && (forall j :: 0 <= j < |ts| && pairs[j].Some? ==> pairs[j].value < i)
    && (forall a, b :: 0 <= a < b < |stack| ==> stack[a] < stack[b])
    && (forall j :: j in stack <==> 0 <= j < i && ts[j].kind == LBrace && pairs[j].None?)
    && (forall a, j :: 0 <= a < |stack| && 0 <= j < i && ts[j].kind == RBrace && pairs[j].None? ==> j < stack[a])
  }

  /** What lies between two braces that are joined is matched there. */
  ghost predicate Filled(ts: seq<Tok>, pairs: Pairs, o: nat, i: nat)
    requires i <= |ts| == |pairs|
  {
    forall j :: o < j < i && IsBrace(ts[j].kind) ==> pairs[j].Some? && o < pairs[j].value < i
  }

  /** Joining two braces around what is matched. */
  lemma Join(ts: seq<Tok>, pairs: Pairs, o: nat, i: nat)
    requires Mutual(ts, pairs) && Nested(ts, pairs) && o < i < |ts|
    requires ts[o].kind == LBrace && ts[i].kind == RBrace && pairs[o].None? && pairs[i].None?
    requires Filled(ts, pairs, o, i)
    ensures var after := pairs[o := Some(i)][i := Some(o)]; Mutual(ts, after) && Nested(ts, after)
  {
    var after := pairs[o := Some(i)][i := Some(o)];
    assert Mutual(ts, after);
    forall a, j | 0 <= a < j < |ts| && after[a].Some? && j < after[a].value && IsBrace(ts[j].kind)
      ensures after[j].Some? && a < after[j].value < after[a].value
    {
      if a != o {
        assert pairs[a] == after[a];
        assert pairs[j].Some?;
      }
    }
  }

  lemma FilledBehind(ts: seq<Tok>, pairs: Pairs, stack: seq<nat>, i: nat)
    requires Searching(ts, pairs, stack, i) && stack != []
    ensures var o := stack[|stack| - 1]; o < i && o < |ts| && ts[o].kind == LBrace && pairs[o].None?
    ensures Filled(ts, pairs, stack[|stack| - 1], i)
  {
    var o := stack[|stack| - 1];
    assert o in stack;
    forall j | o < j < i && IsBrace(ts[j].kind)
      ensures pairs[j].Some? && o < pairs[j].value < i
    {
      assert j in stack <==> ts[j].kind == LBrace && pairs[j].None?;
      assert pairs[j].Some? ==> pairs[pairs[j].value] == Some(j);
    }
  }

  /** A closing brace takes the last one that is open. */
  lemma Closes(ts: seq<Tok>, pairs: Pairs, stack: seq<nat>, i: nat)
    requires Searching(ts, pairs, stack, i) && i < |ts| && ts[i].kind == RBrace && stack != []
    ensures
      var o := stack[|stack| - 1];
      o < i && Searching(ts, pairs[o := Some(i)][i := Some(o)], stack[..|stack| - 1], i + 1)
  {
    hide Nested;
    var o := stack[|stack| - 1];
    FilledBehind(ts, pairs, stack, i);
    Join(ts, pairs, o, i);
    var after, rest := pairs[o := Some(i)][i := Some(o)], stack[..|stack| - 1];
    forall j
      ensures j in rest <==> 0 <= j < i + 1 && ts[j].kind == LBrace && after[j].None?
    {
      assert j in stack <==> j in rest || j == o;
    }
  }

  /** An opening brace stays open. */
  lemma Opens(ts: seq<Tok>, pairs: Pairs, stack: seq<nat>, i: nat)
    requires Searching(ts, pairs, stack, i) && i < |ts| && ts[i].kind == LBrace
    ensures Searching(ts, pairs, stack + [i], i + 1)
  {
    hide Nested;
    forall k | 0 <= k < |stack|
      ensures stack[k] < i
    {
      assert stack[k] in stack;
    }
  }

  /** Other tokens, and closing braces with nothing to close, are passed over. */
  lemma Passes(ts: seq<Tok>, pairs: Pairs, stack: seq<nat>, i: nat)
    requires Searching(ts, pairs, stack, i) && i < |ts|
    requires ts[i].kind == OtherTok || (ts[i].kind == RBrace && stack == [])
    ensures Searching(ts, pairs, stack, i + 1)
  {
    hide Nested;
  }

  /** At the end nothing that is left over could have been joined. */
  lemma Ends(ts: seq<Tok>, pairs: Pairs, stack: seq<nat>)
    requires Searching(ts, pairs, stack, |ts|)
    ensures Matching(ts, pairs)
  {
    hide Nested;
    forall i, j | 0 <= i < j < |ts| && ts[i].kind == LBrace && ts[j].kind == RBrace && pairs[i].None?
      ensures pairs[j].Some?
    {
      assert i in stack;
    }
  }

  lemma NoneYet(ts: seq<Tok>, pairs: Pairs)
    requires |pairs| == |ts| && forall j :: 0 <= j < |ts| ==> pairs[j].None?
    ensures Searching(ts, pairs, [], 0)
  {
  }

  method MatchBraces(ts: seq<Tok>) returns (partner: array<Option<nat>>)
    ensures fresh(partner) && Matching(ts, partner[..])
  {
    hide Searching, Matching;
    partner := new Option<nat>[|ts|](_ => None);
    var stack := new nat[|ts|];
    var top := 0;
    NoneYet(ts, partner[..]);
    assert stack[..top] == [];
    for i := 0 to |ts|
      invariant top <= i && Searching(ts, partner[..], stack[..top], i)
    {
      ghost var pairs, open := partner[..], stack[..top];
      if ts[i].kind == LBrace {
        Opens(ts, pairs, open, i);
        stack[top] := i;
        top := top + 1;
        assert stack[..top] == open + [i];
      } else if ts[i].kind == RBrace && top > 0 {
        Closes(ts, pairs, open, i);
        top := top - 1;
        assert stack[..top] == open[..|open| - 1];
        var o := stack[top];
        partner[o] := Some(i);
        partner[i] := Some(o);
        assert partner[..] == pairs[o := Some(i)][i := Some(o)];
      } else {
        Passes(ts, pairs, open, i);
      }
    }
    Ends(ts, partner[..], stack[..top]);
  }
}
