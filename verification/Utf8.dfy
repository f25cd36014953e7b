/** UTF-8 the way the Go runtime reads and writes it (RFC 3629, section 3): a `range` loop over a
    string, a `[]rune` conversion and `string(runes)`.  A byte that does not start a well-formed
    sequence decodes to the replacement rune and has width one. */
module Utf8 {
  type Byte = b: int | 0 <= b < 256
  type Rune = int

  const RUNE_ERROR: Rune := 0xFFFD

  predicate IsContinuation(b: Byte) {
    0x80 <= b <= 0xBF
  }

  /** Length announced by a lead byte; zero when the byte starts no sequence. */
  function SequenceLength(lead: Byte): nat {
    if lead < 0x80 then 1
    else if lead < 0xC2 then 0
    else if lead < 0xE0 then 2
    else if lead < 0xF0 then 3
    else if lead < 0xF5 then 4
    else 0
  }

  /** The second byte is restricted further to rule out overlong forms, surrogates and values
      above U+10FFFF. */
  predicate SecondByteAllowed(lead: Byte, second: Byte) {
    && (if lead == 0xE0 then 0xA0 else if lead == 0xF0 then 0x90 else 0x80) <= second
    && second <= (if lead == 0xED then 0x9F else if lead == 0xF4 then 0x8F else 0xBF)
  }

  /** s starts with a complete, well-formed sequence. */
  predicate StartsWellFormed(s: seq<Byte>)
    requires |s| > 0
  {
    var n := SequenceLength(s[0]);
    && n != 0
    && n <= |s|
    && (n >= 2 ==> SecondByteAllowed(s[0], s[1]))
    && (n >= 3 ==> IsContinuation(s[2]))
    && (n >= 4 ==> IsContinuation(s[3]))
  }

  function Width(s: seq<Byte>): (w: nat)
    requires |s| > 0
    ensures 1 <= w <= 4 && w <= |s|
    ensures forall j :: 1 <= j < w ==> IsContinuation(s[j])
  {
    if StartsWellFormed(s) then SequenceLength(s[0]) else 1
  }

  function FirstRune(s: seq<Byte>): Rune
    requires |s| > 0
  {
    if !StartsWellFormed(s) then RUNE_ERROR
    else match SequenceLength(s[0])
      case 1 => s[0]
      case 2 => 64 * (s[0] as int - 0xC0) + (s[1] as int - 0x80)
      case 3 => 4096 * (s[0] as int - 0xE0) + 64 * (s[1] as int - 0x80) + (s[2] as int - 0x80)
      case _ =>
        262144 * (s[0] as int - 0xF0) + 4096 * (s[1] as int - 0x80) + 64 * (s[2] as int - 0x80) + (s[3] as int - 0x80)
  }

  function Decode(s: seq<Byte>): seq<Rune> {
    if s == [] then [] else [FirstRune(s)] + Decode(s[Width(s)..])
  }

  /** A rune that some byte string decodes to. */
  predicate IsScalar(r: Rune) {
    0 <= r < 0xD800 || 0xE000 <= r < 0x110000
  }

  function EncodeRune(r: Rune): seq<Byte>
    requires IsScalar(r)
  {
    if r < 0x80 then [r]
    else if r < 0x800 then [0xC0 + r / 64, 0x80 + r % 64]
    else if r < 0x10000 then [0xE0 + r / 4096, 0x80 + r / 64 % 64, 0x80 + r % 64]
    else [0xF0 + r / 262144, 0x80 + r / 4096 % 64, 0x80 + r / 64 % 64, 0x80 + r % 64]
  }

  predicate AllScalar(rs: seq<Rune>) {
    forall i :: 0 <= i < |rs| ==> IsScalar(rs[i])
  }

  function Encode(rs: seq<Rune>): seq<Byte>
    requires AllScalar(rs)
  {
    if rs == [] then [] else EncodeRune(rs[0]) + Encode(rs[1..])
  }

  /** Decoding reads the first rune from at most the bytes of its sequence. */
  lemma FirstRuneIsLocal(s: seq<Byte>, p: nat)
    requires |s| > 0 && Width(s) <= p <= |s|
    ensures Width(s[..p]) == Width(s) && FirstRune(s[..p]) == FirstRune(s)
  {
    assert StartsWellFormed(s[..p]) ==> StartsWellFormed(s);
  }

  lemma {:induction false} DecodedIsScalar(s: seq<Byte>)
    ensures AllScalar(Decode(s))
    ensures |Decode(s)| <= |s|
  {
    if s != [] {
      DecodedIsScalar(s[Width(s)..]);
      FirstRuneIsScalar(s);
    }
  }

  lemma FirstRuneIsScalar(s: seq<Byte>)
    requires |s| > 0
    ensures IsScalar(FirstRune(s))
    ensures FirstRune(s) < 0x80 <==> s[0] < 0x80
    ensures s[0] < 0x80 ==> FirstRune(s) == s[0]
  {
  }

  lemma SixBitGroups(r: nat)
    ensures r / 64 / 64 == r / 4096
    ensures r / 4096 / 64 == r / 262144
  {
  }

  /** Writing a rune and reading it back, whatever follows. */
  lemma EncodeRuneRoundTrip(r: Rune, tail: seq<Byte>)
    requires IsScalar(r)
    ensures Width(EncodeRune(r) + tail) == |EncodeRune(r)|
    ensures FirstRune(EncodeRune(r) + tail) == r
  {
    var e := EncodeRune(r);
    var s := e + tail;
    SixBitGroups(r);
    assert s[0] == e[0];
    if r < 0x80 {
    } else if r < 0x800 {
      assert s[1] == e[1];
    } else if r < 0x10000 {
      assert s[1] == e[1] && s[2] == e[2];
      var high, mid, low := r / 4096, r / 64 % 64, r % 64;
      assert r == 4096 * high + 64 * mid + low;
      assert SecondByteAllowed(s[0], s[1]);
    } else {
      assert s[1] == e[1] && s[2] == e[2] && s[3] == e[3];
      var top, high, mid, low := r / 262144, r / 4096 % 64, r / 64 % 64, r % 64;
      assert r == 262144 * top + 4096 * high + 64 * mid + low;
      assert SecondByteAllowed(s[0], s[1]);
    }
  }

  lemma {:induction false} EncodeRoundTrip(rs: seq<Rune>)
    requires AllScalar(rs)
    ensures Decode(Encode(rs)) == rs
  {
    if rs != [] {
      EncodeRoundTrip(rs[1..]);
      EncodeRuneRoundTrip(rs[0], Encode(rs[1..]));
      assert Encode(rs)[|EncodeRune(rs[0])|..] == Encode(rs[1..]);
    }
  }

  /** No sequence that starts before p reaches past p. */
  predicate IsBoundary(s: seq<Byte>, p: nat)
    requires p <= |s|
  {
    forall i :: 0 <= i < p ==> i + Width(s[i..]) <= p
  }

  /** A boundary past the first rune is a boundary of the rest. */
  lemma BoundaryOfRest(s: seq<Byte>, p: nat)
    requires 0 < p <= |s| && IsBoundary(s, p)
    ensures Width(s) <= p && IsBoundary(s[Width(s)..], p - Width(s))
  {
    var w := Width(s);
    assert s[0..] == s;
    forall i | 0 <= i < p - w ensures i + Width(s[w..][i..]) <= p - w {
      assert s[w..][i..] == s[w + i..];
    }
  }

  lemma DecodePrefix(s: seq<Byte>, p: nat)
    requires |s| > 0 && Width(s) <= p <= |s|
    ensures Decode(s) == [FirstRune(s)] + Decode(s[Width(s)..])
    ensures Decode(s[..p]) == [FirstRune(s)] + Decode(s[..p][Width(s)..])
  {
    FirstRuneIsLocal(s, p);
  }

  /** Decoding can be split at a boundary. */
  lemma {:induction false} DecodeSplits(s: seq<Byte>, p: nat)
    requires p <= |s| && IsBoundary(s, p)
    ensures Decode(s) == Decode(s[..p]) + Decode(s[p..])
    decreases |s|, 1
  {
    if p == 0 {
      assert s[0..] == s && s[..0] == [];
    } else {
      hide *;
      BoundaryOfRest(s, p);
      DecodeSplitsRest(s, p);
      DecodePrefix(s, p);
    }
  }

  lemma {:induction false} DecodeSplitsRest(s: seq<Byte>, p: nat)
    requires 0 < p <= |s| && Width(s) <= p && IsBoundary(s[Width(s)..], p - Width(s))
    ensures Decode(s[Width(s)..]) == Decode(s[..p][Width(s)..]) + Decode(s[p..])
    decreases |s|, 0
  {
    var rest, q := s[Width(s)..], p - Width(s);
    assert rest[..q] == s[..p][Width(s)..] && rest[q..] == s[p..];
    DecodeSplits(rest, q);
  }
}
