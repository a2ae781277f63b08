/** Strings as the compiler makes and cuts them: the encoder for Unicode escapes
    (section 3 of RFC 3629), the escape's accumulator, the count of characters and
    slicing by byte positions. Bytes are numbers below 256. */
module Utf8 {
  import opened Options

  // ---------- The encoder ----------

  predicate ValidScalar(cp: nat) { cp <= 0x10FFFF && !(0xD800 <= cp <= 0xDFFF) }

  /** A byte that continues a character: its top bits are `10`. */
  predicate Continues(b: nat) { b / 64 == 2 }

  /** The low six bits, marked as a continuation. */
  function Six(x: nat): nat { 0x80 + x % 64 }

  function Encode(cp: nat): (bs: seq<nat>)
    requires cp <= 0x10FFFF
    ensures bs != [] && !Continues(bs[0]) && forall k :: 1 <= k < |bs| ==> Continues(bs[k])
    ensures forall b :: b in bs ==> b < 256
  {
    if cp < 0x80 then [cp]
    else if cp < 0x800 then [0xC0 + cp / 64, Six(cp)]
    else if cp < 0x10000 then [0xE0 + cp / 4096, Six(cp / 64), Six(cp)]
    else [0xF0 + cp / 262144, Six(cp / 4096), Six(cp / 64), Six(cp)]
  }

  /** Text that a C string can hold: scalars other than zero. */
  predicate IsText(cs: seq<nat>) { forall i :: 0 <= i < |cs| ==> ValidScalar(cs[i]) && cs[i] != 0 }

  function EncodeAll(cs: seq<nat>): seq<nat>
    requires IsText(cs)
  {
    if cs == [] then [] else Encode(cs[0]) + EncodeAll(cs[1..])
  }

  /** The length of a character, and its number, from its bytes. */
  function Width(lead: nat): nat {
    if lead < 0xC0 then 1 else if lead < 0xE0 then 2 else if lead < 0xF0 then 3 else 4
  }

  function Number(bs: seq<nat>): nat
    requires 1 <= |bs| <= 4
  {
    if |bs| == 1 then bs[0]
    else if |bs| == 2 then bs[0] % 32 * 64 + bs[1] % 64
    else if |bs| == 3 then bs[0] % 16 * 4096 + bs[1] % 64 * 64 + bs[2] % 64
    else bs[0] % 8 * 262144 + bs[1] % 64 * 4096 + bs[2] % 64 * 64 + bs[3] % 64
  }

  lemma SixBits(x: nat)
    ensures Six(x) % 64 == x % 64 && x == x / 64 * 64 + x % 64
  {
  }

  /** A lead byte gives back what was added to its mark. */
  lemma LeadBits(x: nat)
    ensures x < 32 ==> (0xC0 + x) % 32 == x
    ensures x < 16 ==> (0xE0 + x) % 16 == x
    ensures x < 8 ==> (0xF0 + x) % 8 == x
  {
  }

  lemma Shifts(cp: nat)
    ensures cp / 4096 == cp / 64 / 64 && cp / 262144 == cp / 4096 / 64
  {
  }

  /** The first byte says how many follow, and all of them which character it is. */
  lemma CharacterReads(cp: nat)
    requires cp <= 0x10FFFF
    ensures |Encode(cp)| == Width(Encode(cp)[0]) && Number(Encode(cp)) == cp
  {
    hide Six;
    var a, b, c := cp / 64, cp / 4096, cp / 262144;
    Shifts(cp);
    SixBits(cp);
    SixBits(a);
    SixBits(b);
    if cp < 0x80 {
    } else if cp < 0x800 {
      LeadBits(a);
      assert Number([0xC0 + a, Six(cp)]) == cp;
    } else if cp < 0x10000 {
      LeadBits(b);
      assert Number([0xE0 + b, Six(a), Six(cp)]) == cp;
    } else {
      LeadBits(c);
      assert Number([0xF0 + c, Six(b), Six(a), Six(cp)]) == cp;
    }
  }

  /** So no two texts have the same encoding. */
  lemma {:induction false} EncodingIsInjective(a: seq<nat>, b: seq<nat>)
    requires IsText(a) && IsText(b) && EncodeAll(a) == EncodeAll(b)
    ensures a == b
  {
    if a == [] || b == [] {
    } else {
      var s, x, y := EncodeAll(a), Encode(a[0]), Encode(b[0]);
      CharacterReads(a[0]);
      CharacterReads(b[0]);
      assert s[0] == x[0] && s[0] == y[0];
      assert s[..|x|] == x && s[..|y|] == y;
      assert s[|x|..] == EncodeAll(a[1..]) && s[|y|..] == EncodeAll(b[1..]);
      EncodingIsInjective(a[1..], b[1..]);
    }
  }

  // ---------- Escapes ----------

  predicate Hex(ds: seq<nat>) { forall i :: 0 <= i < |ds| ==> ds[i] < 16 }

  /** The number that hexadecimal digits write, however many there are. */
  function Value(ds: seq<nat>): nat { if ds == [] then 0 else Value(ds[..|ds| - 1]) * 16 + ds[|ds| - 1] }

  /** The accumulator of `\u{…}`, in 32 bits, with a flag for what does not fit. The
      escape is taken exactly when its digits write a scalar. */
  method ReadEscape(ds: seq<nat>) returns (r: Option<seq<nat>>)
    requires Hex(ds)
    ensures r.Some? <==> ds != [] && (Value(ds) <= 0xD7FF || 0xE000 <= Value(ds) <= 0x10FFFF)
    ensures r.Some? ==> r.value == Encode(Value(ds))
  {
    var cp, overflow, ndig := 0, false, 0;
    for i := 0 to |ds|
      invariant ndig == i
      invariant overflow <==> Value(ds[..i]) > 0x10FFFF
      invariant !overflow ==> cp == Value(ds[..i])
    {
      assert ds[..i + 1][..i] == ds[..i];
      var v := ds[i];
      if cp > (0x10FFFF - v) / 16 {
        overflow := true;
      }
      cp := (cp * 16 + v) % 0x1_0000_0000;
      ndig := ndig + 1;
    }
    assert ds[..|ds|] == ds;
    r := if ndig == 0 || overflow || !ValidScalar(cp) then None else Some(Encode(cp));
  }

  /** The digits of a number, the last one its remainder. */
  function DigitsOf(n: nat): seq<nat> { if n < 16 then [n] else DigitsOf(n / 16) + [n % 16] }

  lemma {:induction false} DigitsWrite(n: nat)
    ensures Hex(DigitsOf(n)) && Value(DigitsOf(n)) == n
  {
    var ds := DigitsOf(n);
    if n < 16 {
      assert ds[..0] == [];
    } else {
      DigitsWrite(n / 16);
      assert ds[..|ds| - 1] == DigitsOf(n / 16);
    }
  }

  // ---------- Counting ----------

  function Starts(s: seq<nat>): nat {
    if s == [] then 0 else Starts(s[..|s| - 1]) + if Continues(s[|s| - 1]) then 0 else 1
  }

  method CharLen(s: seq<nat>) returns (n: nat)
    ensures n == Starts(s)
  {
    n := 0;
    for i := 0 to |s|
      invariant n == Starts(s[..i])
    {
      assert s[..i + 1][..i] == s[..i];
      if !Continues(s[i]) {
        n := n + 1;
      }
    }
    assert s[..|s|] == s;
  }

  lemma {:induction false} StartsAppend(a: seq<nat>, b: seq<nat>)
    ensures Starts(a + b) == Starts(a) + Starts(b)
  {
    if b == [] {
      assert a + b == a;
    } else {
      assert (a + b)[..|a + b| - 1] == a + b[..|b| - 1];
      StartsAppend(a, b[..|b| - 1]);
    }
  }

  lemma {:induction false} StartsOne(s: seq<nat>)
    requires s != [] && !Continues(s[0]) && forall k :: 1 <= k < |s| ==> Continues(s[k])
    ensures Starts(s) == 1
  {
    if |s| > 1 {
      StartsOne(s[..|s| - 1]);
    } else {
      assert s[..0] == [];
    }
  }

  /** Counting the bytes that do not continue counts the scalars. */
  lemma {:induction false} CharLenCountsScalars(cs: seq<nat>)
    requires IsText(cs)
    ensures Starts(EncodeAll(cs)) == |cs|
  {
    if cs != [] {
      StartsAppend(Encode(cs[0]), EncodeAll(cs[1..]));
      StartsOne(Encode(cs[0]));
      CharLenCountsScalars(cs[1..]);
    }
  }

  // ---------- Slicing ----------

  function Low(lo: int): nat { if lo < 0 then 0 else lo }

  /** Past the end of a range, and no further than the string. */
  function High(s: seq<nat>, hi: int, inclusive: bool): int {
    var h := if inclusive then hi + 1 else hi;
    if h > |s| then |s| else h
  }

  /** `None` is a panic. */
  function Slice(s: seq<nat>, lo: int, hi: int, inclusive: bool): Option<seq<nat>>
    requires High(s, hi, inclusive) >= 0
  {
    var a, b := Low(lo), High(s, hi, inclusive);
    if a < |s| && Continues(s[a]) then None
    else if b < |s| && Continues(s[b]) then None
    else if b < a then None
    else Some(s[a..b])
  }

  /** The byte position of character `i`. */
  function Offset(cs: seq<nat>, i: nat): nat
    requires IsText(cs) && i <= |cs|
  {
    |EncodeAll(cs[..i])|
  }

  lemma {:induction false} EncodeAppend(a: seq<nat>, b: seq<nat>)
    requires IsText(a) && IsText(b)
    ensures IsText(a + b) && EncodeAll(a + b) == EncodeAll(a) + EncodeAll(b)
  {
    if a == [] {
      assert a + b == b;
    } else {
      assert (a + b)[1..] == a[1..] + b;
      EncodeAppend(a[1..], b);
    }
  }

  /** What lies between two characters' positions. */
  lemma Between(cs: seq<nat>, i: nat, j: nat)
    requires IsText(cs) && i <= j <= |cs|
    ensures Offset(cs, i) <= Offset(cs, j) <= |EncodeAll(cs)|
    ensures EncodeAll(cs)[Offset(cs, i)..Offset(cs, j)] == EncodeAll(cs[i..j])
  {
    assert cs[..j] == cs[..i] + cs[i..j] && cs == cs[..j] + cs[j..];
    EncodeAppend(cs[..i], cs[i..j]);
    EncodeAppend(cs[..j], cs[j..]);
  }

  /** The first character's bytes, and what follows. */
  lemma FirstBytes(cs: seq<nat>)
    requires IsText(cs) && cs != []
    ensures IsText(cs[1..]) && EncodeAll(cs) == Encode(cs[0]) + EncodeAll(cs[1..])
    ensures var head := Encode(cs[0]); |head| >= 1 && forall k :: 1 <= k < |head| ==> Continues(head[k])
  {
  }

  lemma OffsetNext(cs: seq<nat>, k: nat)
    requires IsText(cs) && cs != [] && k < |cs|
    ensures Offset(cs, 0) == 0 && IsText(cs[1..]) && Offset(cs, k + 1) == |Encode(cs[0])| + Offset(cs[1..], k)
  {
    FirstBytes(cs[..k + 1]);
    hide Encode;
    assert cs[..k + 1][0] == cs[0] && cs[..k + 1][1..] == cs[1..][..k];
  }

  /** Every position that starts a character is one, and the end is. */
  lemma {:induction false} StartIsOffset(cs: seq<nat>, p: nat) returns (i: nat)
    requires IsText(cs) && p <= |EncodeAll(cs)|
    requires p < |EncodeAll(cs)| ==> !Continues(EncodeAll(cs)[p])
    ensures i <= |cs| && Offset(cs, i) == p
  {
    if p == 0 {
      return 0;
    }
    assert cs != [];
    hide Encode, EncodeAll, IsText, Offset, Continues;
    FirstBytes(cs);
    var head, tail := Encode(cs[0]), EncodeAll(cs[1..]);
    assert p >= |head|;
    assert p < |EncodeAll(cs)| ==> EncodeAll(cs)[p] == tail[p - |head|];
    i := StartIsOffset(cs[1..], p - |head|);
    OffsetNext(cs, i);
    i := i + 1;
  }

  lemma OffsetStarts(cs: seq<nat>, i: nat)
    requires IsText(cs) && i <= |cs|
    ensures var s := EncodeAll(cs); Offset(cs, i) <= |s| && (Offset(cs, i) < |s| ==> !Continues(s[Offset(cs, i)]))
  {
    assert cs == cs[..i] + cs[i..];
    EncodeAppend(cs[..i], cs[i..]);
    assert EncodeAll(cs) == EncodeAll(cs[..i]) + EncodeAll(cs[i..]);
  }

  /** The slice between the positions of two characters. */
  lemma SliceBetween(cs: seq<nat>, lo: int, hi: int, inclusive: bool, i: nat, j: nat)
    requires IsText(cs) && i <= j <= |cs|
    requires Offset(cs, i) == Low(lo) && Offset(cs, j) == High(EncodeAll(cs), hi, inclusive)
    ensures Slice(EncodeAll(cs), lo, hi, inclusive) == Some(EncodeAll(cs[i..j]))
  {
    hide IsText, EncodeAll;
    OffsetStarts(cs, i);
    OffsetStarts(cs, j);
    Between(cs, i, j);
  }

  /** A slice that does not panic is between two characters. */
  lemma SliceFinds(cs: seq<nat>, lo: int, hi: int, inclusive: bool) returns (i: nat, j: nat)
    requires IsText(cs) && High(EncodeAll(cs), hi, inclusive) >= 0
    requires Slice(EncodeAll(cs), lo, hi, inclusive).Some?
    ensures i <= j <= |cs| && Offset(cs, i) == Low(lo) && Offset(cs, j) == High(EncodeAll(cs), hi, inclusive)
  {
    hide IsText, EncodeAll;
    i := StartIsOffset(cs, Low(lo));
    j := StartIsOffset(cs, High(EncodeAll(cs), hi, inclusive));
    if j < i {
      Between(cs, j, i);
      j := i;
    }
  }

  /** A slice of encoded text from byte `lo`, or the first one, to byte `hi`, or behind
      it, or the end, panics exactly when one of its ends is inside a character or they
      are out of order; otherwise it is the encoding of the characters between them. */
  lemma SliceRespectsScalars(cs: seq<nat>, lo: int, hi: int, inclusive: bool)
    requires IsText(cs) && High(EncodeAll(cs), hi, inclusive) >= 0
    ensures
      var s := EncodeAll(cs);
      var from, to := if lo < 0 then 0 else lo, if inclusive then hi + 1 else hi;
      Slice(s, lo, hi, inclusive).Some? <==>
        exists i, j :: 0 <= i <= j <= |cs| && Offset(cs, i) == from && Offset(cs, j) == if to <= |s| then to else |s|
    ensures
      var s := EncodeAll(cs);
      var from, to := if lo < 0 then 0 else lo, if inclusive then hi + 1 else hi;
      forall i, j ::
        0 <= i <= j <= |cs| && Offset(cs, i) == from && Offset(cs, j) == (if to <= |s| then to else |s|) ==>
        Slice(s, lo, hi, inclusive) == Some(EncodeAll(cs[i..j]))
  {
    hide EncodeAll, Slice, Offset;
    var s := EncodeAll(cs);
    forall i, j | 0 <= i <= j <= |cs| && Offset(cs, i) == Low(lo) && Offset(cs, j) == High(s, hi, inclusive)
      ensures Slice(s, lo, hi, inclusive) == Some(EncodeAll(cs[i..j]))
    {
      SliceBetween(cs, lo, hi, inclusive, i, j);
    }
    if Slice(s, lo, hi, inclusive).Some? {
      var i, j := SliceFinds(cs, lo, hi, inclusive);
    }
  }
}
