/** Reassembling runes from single bytes of terminal input. Bit masks are written as ranges:
    `b & 0xE0 == 0xC0` is 0xC0 <= b < 0xE0, and so on. */
module Utf8 {

  type Byte = b: int | 0 <= b < 256

  const RUNE_ERROR := 0xFFFD

  datatype Decoded = Decoded(rune: int, size: nat)

  const INVALID := Decoded(RUNE_ERROR, 1)

  predicate Continuation(b: Byte) { 0x80 <= b < 0xC0 }

  /** Two-, three- and four-byte lead patterns, before validity is considered. */
  predicate Lead(b: Byte) { 0xC0 <= b < 0xE0 || 0xE0 <= b < 0xF0 || 0xF0 <= b < 0xF8 }

  /** The second bytes that neither overlong forms, surrogates nor values past U+10FFFF use. */
  predicate SecondOk(lead: Byte, b: Byte) {
    (if lead == 0xE0 then 0xA0 else if lead == 0xF0 then 0x90 else 0x80) <= b
    && b <= (if lead == 0xED then 0x9F else if lead == 0xF4 then 0x8F else 0xBF)
  }

  /** Six more bits, from a continuation byte. */
  function Join(high: int, b: Byte): int { high * 64 + (b as int - 0x80) }

  /** The first rune of a byte string, as in sections 3 and 4 of RFC 3629; anything else is one
      invalid byte. */
  function DecodeRune(p: seq<Byte>): Decoded {
    if p == [] then Decoded(RUNE_ERROR, 0)
    else if p[0] < 0x80 then Decoded(p[0], 1)
    else if p[0] < 0xC2 || p[0] > 0xF4 then INVALID
    else if p[0] < 0xE0 then
      if |p| < 2 || !SecondOk(p[0], p[1]) then INVALID
      else Decoded(Join(p[0] - 0xC0, p[1]), 2)
    else if p[0] < 0xF0 then
      if |p| < 3 || !SecondOk(p[0], p[1]) || !Continuation(p[2]) then INVALID
      else Decoded(Join(Join(p[0] - 0xE0, p[1]), p[2]), 3)
    else
      if |p| < 4 || !SecondOk(p[0], p[1]) || !Continuation(p[2]) || !Continuation(p[3]) then INVALID
      else Decoded(Join(Join(Join(p[0] - 0xF0, p[1]), p[2]), p[3]), 4)
  }

  datatype Fed = Fed(acc: seq<Byte>, runes: seq<int>)

  /** One byte into the accumulator; at most one rune comes out. */
  function FeedAssembler(acc: seq<Byte>, b: Byte): Fed {
    if acc == [] || !Continuation(b) then
      if Lead(b) then Fed([b], []) else Fed([], [])
    else
      var acc' := acc + [b];
      var d := DecodeRune(acc');
      if d.rune != RUNE_ERROR && d.size == |acc'| then Fed([], [d.rune])
      else if |acc'| >= 4 then Fed([], [])
      else Fed(acc', [])
  }

  function FeedAll(acc: seq<Byte>, bytes: seq<Byte>): Fed {
    if bytes == [] then Fed(acc, [])
    else
      var before := FeedAll(acc, bytes[..|bytes| - 1]);
      var one := FeedAssembler(before.acc, bytes[|bytes| - 1]);
      Fed(one.acc, Then(before.runes, one.runes))
  }

  function Then(a: seq<int>, b: seq<int>): seq<int> { if b == [] then a else a + b }

  // ---- Encoding ----

  /** Scalar values that need more than one byte. */
  predicate Wide(r: int) {
    0x80 <= r <= 0x10FFFF && !(0xD800 <= r <= 0xDFFF)
  }

  function High(r: int): (h: int)
    requires r >= 0
    ensures 64 * h <= r < 64 * h + 64
  {
    r / 64
  }

  function Low(r: int): (b: Byte)
    requires r >= 0
    ensures Continuation(b) && Join(High(r), b) == r
  {
    0x80 + r % 64
  }

  lemma JoinSplits(high: int, b: Byte)
    requires high >= 0 && Continuation(b)
    ensures Join(high, b) >= 0 && High(Join(high, b)) == high && Low(Join(high, b)) == b
  {
  }

  function Encode(r: int): (p: seq<Byte>)
    requires Wide(r)
    ensures |p| == if r < 0x800 then 2 else if r < 0x10000 then 3 else 4
  {
    if r < 0x800 then [0xC0 + High(r), Low(r)]
    else if r < 0x10000 then [0xE0 + High(High(r)), Low(High(r)), Low(r)]
    else [0xF0 + High(High(High(r))), Low(High(High(r))), Low(High(r)), Low(r)]
  }

  function EncodeAll(rs: seq<int>): seq<Byte>
    requires forall i :: 0 <= i < |rs| ==> Wide(rs[i])
  {
    if rs == [] then [] else EncodeAll(rs[..|rs| - 1]) + Encode(rs[|rs| - 1])
  }

  lemma EncodedShape(r: int)
    requires Wide(r)
    ensures Lead(Encode(r)[0]) && SecondOk(Encode(r)[0], Encode(r)[1]) && 0xC2 <= Encode(r)[0] <= 0xF4
    ensures forall k :: 1 <= k < |Encode(r)| ==> Continuation(Encode(r)[k])
  {
  }

  lemma Digits(r: int, h: int, b: Byte)
    requires h >= 0 && Continuation(b) && r == 64 * h + (b as int - 0x80)
    ensures High(r) == h && Low(r) == b
  {
  }

  /** The layouts of section 3 of RFC 3629: eleven, sixteen or twenty-one bits, six in each byte after the
      first. */
  lemma TwoByteLayout(r: int, a: Byte, b: Byte)
    requires 0x80 <= r < 0x800 && a >= 0xC0 && Continuation(b)
    requires r == 64 * (a as int - 0xC0) + (b as int - 0x80)
    ensures Encode(r) == [a, b]
  {
    Digits(r, a as int - 0xC0, b);
  }

  lemma ThreeByteLayout(r: int, a: Byte, b: Byte, c: Byte)
    requires Wide(r) && 0x800 <= r < 0x10000 && a >= 0xE0 && Continuation(b) && Continuation(c)
    requires r == 4096 * (a as int - 0xE0) + 64 * (b as int - 0x80) + (c as int - 0x80)
    ensures Encode(r) == [a, b, c]
  {
    var h := 64 * (a as int - 0xE0) + (b as int - 0x80);
    Digits(r, h, c);
    Digits(h, a as int - 0xE0, b);
  }

  lemma FourByteLayout(r: int, a: Byte, b: Byte, c: Byte, d: Byte)
    requires Wide(r) && 0x10000 <= r && a >= 0xF0 && Continuation(b) && Continuation(c) && Continuation(d)
    requires r == 262144 * (a as int - 0xF0) + 4096 * (b as int - 0x80) + 64 * (c as int - 0x80) + (d as int - 0x80)
    ensures Encode(r) == [a, b, c, d]
  {
    var h := 64 * (a as int - 0xF0) + (b as int - 0x80);
    var m := 64 * h + (c as int - 0x80);
    Digits(r, m, d);
    Digits(m, h, c);
    Digits(h, a as int - 0xF0, b);
  }

  lemma DecodeEncode(r: int)
    requires Wide(r)
    ensures DecodeRune(Encode(r)) == Decoded(r, |Encode(r)|)
  {
    EncodedShape(r);
  }

  /** A decoded multi-byte rune is a scalar value and its bytes are that value's encoding. */
  lemma EncodeDecode(p: seq<Byte>)
    requires |p| >= 2 && DecodeRune(p).size == |p|
    ensures Wide(DecodeRune(p).rune) && Encode(DecodeRune(p).rune) == p
  {
    var a := Join(p[0] - (if |p| == 2 then 0xC0 else if |p| == 3 then 0xE0 else 0xF0), p[1]);
    JoinSplits(p[0] - (if |p| == 2 then 0xC0 else if |p| == 3 then 0xE0 else 0xF0), p[1]);
    if |p| >= 3 {
      JoinSplits(a, p[2]);
    }
    if |p| >= 4 {
      JoinSplits(Join(a, p[2]), p[3]);
    }
  }

  lemma PrefixInvalid(r: int, k: nat)
    requires Wide(r) && 1 <= k < |Encode(r)|
    ensures DecodeRune(Encode(r)[..k]) == INVALID
  {
    EncodedShape(r);
  }

  // ---- Reassembly ----

  lemma ThenAssociates(a: seq<int>, b: seq<int>, c: seq<int>)
    ensures Then(Then(a, b), c) == Then(a, Then(b, c))
  {
    if b != [] && c != [] { assert a + b + c == a + (b + c); }
  }

  lemma {:induction false} FeedConcat(acc: seq<Byte>, a: seq<Byte>, b: seq<Byte>)
    ensures var x := FeedAll(acc, a); var y := FeedAll(x.acc, b);
            FeedAll(acc, a + b) == Fed(y.acc, Then(x.runes, y.runes))
  {
    var x := FeedAll(acc, a);
    if b == [] {
      assert a + b == a;
    } else {
      var b' := b[..|b| - 1];
      assert (a + b)[..|a + b| - 1] == a + b';
      FeedConcat(acc, a, b');
      var y' := FeedAll(x.acc, b');
      var one := FeedAssembler(y'.acc, b[|b| - 1]);
      ThenAssociates(x.runes, y'.runes, one.runes);
    }
  }

  /** Until its last byte, an encoding only fills the accumulator, whatever was there before. */
  lemma {:induction false} FeedPrefix(acc: seq<Byte>, r: int, k: nat)
    requires Wide(r) && 1 <= k < |Encode(r)|
    ensures FeedAll(acc, Encode(r)[..k]) == Fed(Encode(r)[..k], [])
    decreases k
  {
    EncodedShape(r);
    var e := Encode(r);
    assert e[..k][..k - 1] == e[..k - 1];
    if k == 1 {
      assert e[..0] == [];
    } else {
      FeedPrefix(acc, r, k - 1);
      PrefixInvalid(r, k);
      assert e[..k - 1] + [e[k - 1]] == e[..k];
    }
  }

  /** From any accumulator, an encoding emits its rune on its last byte and leaves nothing behind;
      only U+FFFD, which reads like a decoding error, is swallowed and stays in the accumulator. */
  lemma FeedOne(acc: seq<Byte>, r: int)
    requires Wide(r)
    ensures FeedAll(acc, Encode(r)) == if r == RUNE_ERROR then Fed(Encode(r), []) else Fed([], [r])
  {
    EncodedShape(r);
    FeedPrefix(acc, r, |Encode(r)| - 1);
    DecodeEncode(r);
    FeedLast(acc, Encode(r), r);
  }

  lemma FeedLast(acc: seq<Byte>, e: seq<Byte>, r: int)
    requires |e| >= 2 && Continuation(e[|e| - 1]) && DecodeRune(e) == Decoded(r, |e|)
    requires r == RUNE_ERROR ==> |e| < 4
    requires FeedAll(acc, e[..|e| - 1]) == Fed(e[..|e| - 1], [])
    ensures FeedAll(acc, e) == if r == RUNE_ERROR then Fed(e, []) else Fed([], [r])
  {
    assert e[..|e| - 1] + [e[|e| - 1]] == e;
  }

  /** One more value at the end emits just that value more. */
  lemma FeedNext(acc: seq<Byte>, bytes: seq<Byte>, r: int)
    requires Wide(r)
    ensures r != RUNE_ERROR ==> FeedAll(acc, bytes + Encode(r)) == Fed([], FeedAll(acc, bytes).runes + [r])
    ensures r == RUNE_ERROR ==> FeedAll(acc, bytes + Encode(r)) == Fed(Encode(r), FeedAll(acc, bytes).runes)
  {
    var fed := FeedAll(acc, bytes);
    FeedConcat(acc, bytes, Encode(r));
    FeedOne(fed.acc, r);
  }

  function WithoutErrors(rs: seq<int>): seq<int> {
    if rs == [] then []
    else
      var init, last := rs[..|rs| - 1], rs[|rs| - 1];
      if last == RUNE_ERROR then WithoutErrors(init) else WithoutErrors(init) + [last]
  }

  lemma {:induction false} EmitsAll(acc: seq<Byte>, rs: seq<int>)
    requires forall i :: 0 <= i < |rs| ==> Wide(rs[i])
    ensures FeedAll(acc, EncodeAll(rs)).runes == WithoutErrors(rs)
  {
    if rs != [] {
      EmitsAll(acc, rs[..|rs| - 1]);
      FeedNext(acc, EncodeAll(rs[..|rs| - 1]), rs[|rs| - 1]);
    }
  }

  lemma EndsEmptyIff(acc: seq<Byte>, rs: seq<int>)
    requires rs != [] && forall i :: 0 <= i < |rs| ==> Wide(rs[i])
    ensures FeedAll(acc, EncodeAll(rs)).acc == [] <==> rs[|rs| - 1] != RUNE_ERROR
  {
    FeedNext(acc, EncodeAll(rs[..|rs| - 1]), rs[|rs| - 1]);
  }

  /** From any accumulator, the encoding of any sequence of wide scalar values emits exactly those
      other than U+FFFD, in order, and ends with an empty accumulator unless the last was U+FFFD. */
  lemma Reassembles(acc: seq<Byte>, rs: seq<int>)
    requires forall i :: 0 <= i < |rs| ==> Wide(rs[i])
    ensures FeedAll(acc, EncodeAll(rs)).runes == WithoutErrors(rs)
    ensures rs != [] ==> (FeedAll(acc, EncodeAll(rs)).acc == [] <==> rs[|rs| - 1] != RUNE_ERROR)
  {
    EmitsAll(acc, rs);
    if rs != [] { EndsEmptyIff(acc, rs); }
  }

  lemma {:induction false} WithoutErrorsSame(rs: seq<int>)
    requires RUNE_ERROR !in rs
    ensures WithoutErrors(rs) == rs
  {
    if rs != [] {
      WithoutErrorsSame(rs[..|rs| - 1]);
      assert rs == rs[..|rs| - 1] + [rs[|rs| - 1]];
    }
  }

  /** Without U+FFFD among them, exactly these values are emitted and nothing is left behind, whatever the
      accumulator held before. */
  lemma ReassemblesExactly(acc: seq<Byte>, rs: seq<int>)
    requires rs != [] && RUNE_ERROR !in rs && forall i :: 0 <= i < |rs| ==> Wide(rs[i])
    ensures FeedAll(acc, EncodeAll(rs)) == Fed([], rs)
  {
    Reassembles(acc, rs);
    WithoutErrorsSame(rs);
    assert rs[|rs| - 1] in rs;
  }

  /** A lead byte, 0xC0 to 0xF7, and up to two continuation bytes, or nothing. */
  predicate Partial(acc: seq<Byte>) {
    && |acc| <= 3 && (acc != [] ==> 0xC0 <= acc[0] < 0xF8)
    && forall i :: 1 <= i < |acc| ==> 0x80 <= acc[i] < 0xC0
  }

  /** Whatever bytes arrive, the accumulator never holds anything else; and a byte below 0x80 empties it. */
  lemma {:induction false} AccumulatorIsPartial(acc: seq<Byte>, bytes: seq<Byte>)
    requires Partial(acc)
    ensures Partial(FeedAll(acc, bytes).acc)
    ensures bytes != [] && bytes[|bytes| - 1] < 0x80 ==> FeedAll(acc, bytes).acc == []
    decreases |bytes|
  {
    if bytes != [] {
      AccumulatorIsPartial(acc, bytes[..|bytes| - 1]);
      PartialStep(FeedAll(acc, bytes[..|bytes| - 1]).acc, bytes[|bytes| - 1]);
    }
  }

  lemma PartialStep(acc: seq<Byte>, b: Byte)
    requires Partial(acc)
    ensures Partial(FeedAssembler(acc, b).acc) && (b < 0x80 ==> FeedAssembler(acc, b) == Fed([], []))
  {
  }

  /** Whatever bytes arrive, every rune emitted is a wide scalar value other than U+FFFD, and the bytes
      just gathered are its encoding. */
  lemma EmitsOnlyEncodings(acc: seq<Byte>, b: Byte)
    requires FeedAssembler(acc, b).runes != []
    ensures var r := FeedAssembler(acc, b).runes[0];
            Wide(r) && r != RUNE_ERROR && acc + [b] == Encode(r) && FeedAssembler(acc, b) == Fed([], [r])
  {
    EncodeDecode(acc + [b]);
  }
}
