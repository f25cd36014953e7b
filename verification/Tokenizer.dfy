/** The local token estimate of internal/tokenizer/tokenizer.go: how many tokens a text counts, and
    what changes when the text arrives in pieces. */
module Tokenizer {
  import opened Utf8

  const CHARS_PER_TOKEN := 4

  // ---------------------------------------------------------------------------------------------
  // What a text counts
  // ---------------------------------------------------------------------------------------------

  datatype Kind = Word | Space | Single

  predicate IsAsciiWord(r: Rune) {
    'a' as int <= r <= 'z' as int || 'A' as int <= r <= 'Z' as int || '0' as int <= r <= '9' as int
  }

  /** White space other than the line feed, which is a token of its own. */
  predicate IsRunSpace(r: Rune) {
    || r == 0x20 || r == 0x09 || r == 0x0D || r == 0x0B || r == 0x0C
    || r == 0x85 || r == 0xA0 || r == 0x1680 || 0x2000 <= r <= 0x200A
    || r == 0x2028 || r == 0x2029 || r == 0x202F || r == 0x205F || r == 0x3000
  }

  predicate IsWide(r: Rune) {
    || 0x3040 <= r <= 0x30FF || 0x3400 <= r <= 0x4DBF || 0x4E00 <= r <= 0x9FFF
    || 0xF900 <= r <= 0xFAFF || 0xAC00 <= r <= 0xD7AF || 0x20000 <= r <= 0x2FA1F
  }

  function KindOf(r: Rune): Kind {
    if IsAsciiWord(r) then Word else if IsRunSpace(r) then Space else Single
  }

  /** Length of the longest suffix of the given kind. */
  function TrailingRun(rs: seq<Rune>, kind: Kind): (n: nat)
    ensures n <= |rs|
  {
    if rs == [] || KindOf(rs[|rs| - 1]) != kind then 0 else TrailingRun(rs[..|rs| - 1], kind) + 1
  }

  /** Length of the longest prefix of white space. */
  function LeadingSpaces(rs: seq<Rune>): (n: nat)
    ensures n <= |rs|
  {
    if rs == [] || KindOf(rs[0]) != Space then 0 else LeadingSpaces(rs[1..]) + 1
  }

  /** Tokens that one more rune adds: a word opens a token at every fourth letter, a white-space run
      opens one at its second rune and at every fourth after that, everything else is a token. */
  function TokensAdded(before: seq<Rune>, r: Rune): (n: nat)
    ensures n <= 1
  {
    match KindOf(r)
    case Word => if TrailingRun(before, Word) % 4 == 0 then 1 else 0
    case Space => if TrailingRun(before, Space) % 4 == 1 then 1 else 0
    case Single => 1
  }

  function Count(rs: seq<Rune>): nat {
    if rs == [] then 0
    else Count(rs[..|rs| - 1]) + TokensAdded(rs[..|rs| - 1], rs[|rs| - 1])
  }

  lemma CountSnoc(rs: seq<Rune>, r: Rune)
    ensures Count(rs + [r]) == Count(rs) + TokensAdded(rs, r)
    ensures TrailingRun(rs + [r], Word) == if KindOf(r) == Word then TrailingRun(rs, Word) + 1 else 0
    ensures TrailingRun(rs + [r], Space) == if KindOf(r) == Space then TrailingRun(rs, Space) + 1 else 0
  {
    assert (rs + [r])[..|rs|] == rs;
  }

  /** Tokens of a word on its own. */
  function WordTokens(n: nat): nat {
    (n + 3) / 4
  }

  /** Tokens of a white-space run on its own. */
  function SpaceTokens(n: nat): nat {
    (n + 2) / 4
  }

  lemma RunsGrow(n: nat)
    ensures WordTokens(n + 1) == WordTokens(n) + if n % 4 == 0 then 1 else 0
    ensures SpaceTokens(n + 1) == SpaceTokens(n) + if n % 4 == 1 then 1 else 0
  {
  }

  /** Tokens of the runs that have ended. */
  function Settled(rs: seq<Rune>): int {
    Count(rs) - WordTokens(TrailingRun(rs, Word)) - SpaceTokens(TrailingRun(rs, Space))
  }

  /** Tokens that a rune settles, given the runs before it. */
  function EndedRuns(kind: Kind, runLen: nat, spaces: nat): nat {
    match kind
    case Word => SpaceTokens(spaces)
    case Space => WordTokens(runLen)
    case Single => WordTokens(runLen) + SpaceTokens(spaces) + 1
  }

  lemma SettledSnoc(rs: seq<Rune>, r: Rune)
    ensures Settled(rs + [r]) ==
            Settled(rs) + EndedRuns(KindOf(r), TrailingRun(rs, Word), TrailingRun(rs, Space))
    ensures TrailingRun(rs + [r], Word) == if KindOf(r) == Word then TrailingRun(rs, Word) + 1 else 0
    ensures TrailingRun(rs + [r], Space) == if KindOf(r) == Space then TrailingRun(rs, Space) + 1 else 0
  {
    CountSnoc(rs, r);
    RunsGrow(TrailingRun(rs, Word));
    RunsGrow(TrailingRun(rs, Space));
  }

  /** One pass over the text, counting word and white-space runs when they end. */
  method Scan(text: seq<Byte>) returns (tokens: nat)
    ensures tokens == Count(Decode(text))
  {
    tokens := 0;
    var runLen: nat, spaces: nat := 0, 0;
    var rest := text;
    ghost var rs, i := Decode(text), 0;
    while rest != []
      invariant i <= |rs| && Decode(rest) == rs[i..]
      invariant runLen == TrailingRun(rs[..i], Word) && spaces == TrailingRun(rs[..i], Space)
      invariant tokens == Settled(rs[..i])
      decreases |rest|
    {
      SettledSnoc(rs[..i], rs[i]);
      assert rs[..i + 1] == rs[..i] + [rs[i]];
      tokens, runLen, spaces := ScanRune(FirstRune(rest), tokens, runLen, spaces);
      rest := rest[Width(rest)..];
      i := i + 1;
    }
    assert rs[..i] == rs;
    tokens, runLen := FlushWord(tokens, runLen);
    tokens, spaces := FlushSpaces(tokens, spaces);
  }

  method ScanRune(ch: Rune, tokens: nat, runLen: nat, spaces: nat) returns (t: nat, r: nat, s: nat)
    ensures t == tokens + EndedRuns(KindOf(ch), runLen, spaces)
    ensures r == if KindOf(ch) == Word then runLen + 1 else 0
    ensures s == if KindOf(ch) == Space then spaces + 1 else 0
  {
    t, r, s := tokens, runLen, spaces;
    if ch < 128 && IsAsciiWord(ch) {
      t, s := FlushSpaces(t, s);
      r := r + 1;
    } else if ch == 10 {
      t, r := FlushWord(t, r);
      t, s := FlushSpaces(t, s);
      t := t + 1;
    } else if IsRunSpace(ch) {
      t, r := FlushWord(t, r);
      s := s + 1;
    } else if IsWide(ch) {
      t, r := FlushWord(t, r);
      t, s := FlushSpaces(t, s);
      t := t + 1;
    } else {
      t, r := FlushWord(t, r);
      t, s := FlushSpaces(t, s);
      t := t + 1;
    }
  }

  method FlushWord(tokens: nat, runLen: nat) returns (t: nat, r: nat)
    ensures t == tokens + WordTokens(runLen) && r == 0
  {
    if runLen == 0 {
      return tokens, 0;
    }
    return tokens + (runLen + CHARS_PER_TOKEN - 1) / CHARS_PER_TOKEN, 0;
  }

  method FlushSpaces(tokens: nat, spaces: nat) returns (t: nat, s: nat)
    ensures t == tokens + SpaceTokens(spaces) && s == 0
  {
    if spaces <= 1 {
      return tokens, 0;
    }
    return tokens + (spaces - 1 + CHARS_PER_TOKEN - 1) / CHARS_PER_TOKEN, 0;
  }

  /** Tokens gained by counting a white-space run of a + b runes as two runs. */
  function Surplus(a: nat, b: nat): int {
    SpaceTokens(a) + SpaceTokens(b) - SpaceTokens(a + b)
  }

  lemma SurplusBounds(a: nat, b: nat)
    ensures -1 <= Surplus(a, b) <= 1
    ensures a == 0 || b == 0 ==> Surplus(a, b) == 0
    ensures Surplus(a, b) == 0 <==> 2 <= (a + 2) % 4 + (b + 2) % 4 <= 5
  {
  }

  lemma SurplusGrows(a: nat, b: nat, both: nat)
    requires both == a + b
    ensures Surplus(a, b + 1) == Surplus(a, b) + (if b % 4 == 1 then 1 else 0) - (if both % 4 == 1 then 1 else 0)
  {
    RunsGrow(b);
    RunsGrow(both);
    assert SpaceTokens(a + (b + 1)) == SpaceTokens(both + 1);
  }

  /** A run goes on from one half of a text through a second half that is all white space. */
  ghost predicate RunsJoin(a: seq<Rune>, b: seq<Rune>) {
    && TrailingRun(a + b, Word) == TrailingRun(b, Word)
    && (LeadingSpaces(b) == |b| ==>
          TrailingRun(b, Space) == |b| && TrailingRun(a + b, Space) == TrailingRun(a, Space) + |b|)
    && (LeadingSpaces(b) < |b| ==> TrailingRun(a + b, Space) == TrailingRun(b, Space))
  }

  /** Counting two halves of a text separately is off by the surplus of the white-space run they
      share, provided no word is cut. */
  lemma {:induction false} CountSplits(a: seq<Rune>, b: seq<Rune>)
    requires TrailingRun(a, Word) == 0
    ensures Count(a) + Count(b) == Count(a + b) + Surplus(TrailingRun(a, Space), LeadingSpaces(b))
    ensures RunsJoin(a, b)
    decreases |b|
  {
    if b == [] {
      assert a + b == a;
    } else {
      var init, last := b[..|b| - 1], b[|b| - 1];
      CountSplits(a, init);
      CountSplitsSnoc(a, init, last);
      assert init + [last] == b;
    }
  }

  lemma CountSplitsSnoc(a: seq<Rune>, b: seq<Rune>, r: Rune)
    requires RunsJoin(a, b)
    ensures RunsJoin(a, b + [r])
    ensures Count(b + [r]) - Count(a + (b + [r])) == Count(b) - Count(a + b)
            + Surplus(TrailingRun(a, Space), LeadingSpaces(b + [r])) - Surplus(TrailingRun(a, Space), LeadingSpaces(b))
  {
    hide *;
    RunsJoinSnoc(a, b, r);
    SurplusSnoc(a, b, r);
    assert a + (b + [r]) == (a + b) + [r];
    CountSnoc(b, r);
    CountSnoc(a + b, r);
  }

  lemma SurplusSnoc(a: seq<Rune>, b: seq<Rune>, r: Rune)
    requires RunsJoin(a, b)
    ensures TokensAdded(b, r) - TokensAdded(a + b, r) ==
            Surplus(TrailingRun(a, Space), LeadingSpaces(b + [r])) - Surplus(TrailingRun(a, Space), LeadingSpaces(b))
  {
    LeadingSpacesSnoc(b, r);
    if KindOf(r) == Space && LeadingSpaces(b) == |b| {
      SurplusGrows(TrailingRun(a, Space), |b|, TrailingRun(a + b, Space));
    }
  }

  lemma RunsJoinSnoc(a: seq<Rune>, b: seq<Rune>, r: Rune)
    requires RunsJoin(a, b)
    ensures RunsJoin(a, b + [r])
  {
    assert a + (b + [r]) == (a + b) + [r];
    CountSnoc(b, r);
    CountSnoc(a + b, r);
    LeadingSpacesSnoc(b, r);
  }

  lemma {:induction false} LeadingSpacesSnoc(rs: seq<Rune>, r: Rune)
    ensures LeadingSpaces(rs + [r]) ==
            if LeadingSpaces(rs) == |rs| && KindOf(r) == Space then |rs| + 1 else LeadingSpaces(rs)
    decreases |rs|
  {
    if rs != [] {
      LeadingSpacesSnoc(rs[1..], r);
      assert (rs + [r])[1..] == rs[1..] + [r];
    }
  }

  /** Counting never shrinks when a text grows, and grows by at most one token a rune. */
  lemma {:induction false} CountIsGradual(rs: seq<Rune>, i: nat, j: nat)
    requires i <= j <= |rs|
    ensures Count(rs[..i]) <= Count(rs[..j]) <= Count(rs[..i]) + (j - i)
    decreases j - i
  {
    if i < j {
      CountIsGradual(rs, i, j - 1);
      CountSnoc(rs[..j - 1], rs[j - 1]);
      assert rs[..j] == rs[..j - 1] + [rs[j - 1]];
    }
  }

  // ---------------------------------------------------------------------------------------------
  // Where a piece of text may be cut
  // ---------------------------------------------------------------------------------------------

  predicate IsAsciiWordByte(b: Byte) {
    IsAsciiWord(b)
  }

  function RuneByteLength(lead: Byte): nat {
    if lead >= 0xF0 then 4 else if lead >= 0xE0 then 3 else if lead >= 0xC0 then 2 else 1
  }

  /** The last k bytes are a lead byte and continuations, but fewer than the lead announces. */
  predicate Dangling(text: seq<Byte>, k: nat)
    requires 1 <= k <= |text|
  {
    && text[|text| - k] >= 0xC0
    && k < RuneByteLength(text[|text| - k])
    && forall j :: |text| - k < j < |text| ==> IsContinuation(text[j])
  }

  /** End of the last complete rune. */
  function CompleteLength(text: seq<Byte>): (n: nat)
    ensures n <= |text|
  {
    if |text| >= 1 && Dangling(text, 1) then |text| - 1
    else if |text| >= 2 && Dangling(text, 2) then |text| - 2
    else if |text| >= 3 && Dangling(text, 3) then |text| - 3
    else |text|
  }

  method TrimIncompleteRune(text: seq<Byte>) returns (end: nat)
    ensures end == CompleteLength(text)
  {
    var offset := 1;
    while offset <= 4 && offset <= |text|
      invariant 1 <= offset <= 5 && offset <= |text| + 1
      invariant forall j :: |text| - offset < j < |text| ==> IsContinuation(text[j])
    {
      var ch := text[|text| - offset];
      if ch < 0x80 {
        break;
      }
      if ch >= 0xC0 {
        if offset < RuneByteLength(ch) {
          assert Dangling(text, offset);
          return |text| - offset;
        }
        break;
      }
      offset := offset + 1;
    }
    return |text|;
  }

  /** Drops a trailing ASCII word. */
  function WithoutWord(text: seq<Byte>, end: nat): (n: nat)
    requires end <= |text|
    ensures n <= end
    ensures n > 0 ==> !IsAsciiWordByte(text[n - 1])
    ensures forall j :: n <= j < end ==> IsAsciiWordByte(text[j])
  {
    if end > 0 && IsAsciiWordByte(text[end - 1]) then WithoutWord(text, end - 1) else end
  }

  /** How much of a buffered text is counted now. */
  function SplitPoint(text: seq<Byte>): (n: nat)
    ensures n <= |text|
  {
    WithoutWord(text, CompleteLength(text))
  }

  /** A tail that stops inside a rune or an ASCII word waits for the next piece. */
  method FindSplit(text: seq<Byte>) returns (split: nat)
    ensures split == SplitPoint(text)
  {
    split := TrimIncompleteRune(text);
    while split > 0
      invariant split <= |text|
      invariant WithoutWord(text, split) == SplitPoint(text)
    {
      var ch := text[split - 1];
      if !IsAsciiWordByte(ch) {
        break;
      }
      split := split - 1;
    }
  }

  /** Whatever bytes follow, no rune reaches over the split point. */
  lemma SplitPointIsBoundary(text: seq<Byte>, future: seq<Byte>)
    ensures IsBoundary(text + future, SplitPoint(text))
  {
    var s, p := text + future, SplitPoint(text);
    forall i | 0 <= i < p ensures i + Width(s[i..]) <= p {
      assert s[i..][0] == text[i];
      forall j | i < j < i + Width(s[i..]) ensures IsContinuation(s[j]) {
        assert s[j] == s[i..][j - i];
      }
      assert forall j :: 0 <= j < |text| ==> text[j] == s[j];
      if p < |text| {
        NotContinuationAtSplit(text);
      } else {
        NothingDangles(text, |text| - i);
      }
    }
  }

  lemma NothingDangles(text: seq<Byte>, k: nat)
    requires 1 <= k <= |text| && SplitPoint(text) == |text|
    ensures !Dangling(text, k)
  {
  }

  lemma NotContinuationAtSplit(text: seq<Byte>)
    ensures SplitPoint(text) < |text| ==> !IsContinuation(text[SplitPoint(text)])
  {
  }

  /** What is held back starts neither with white space nor in the middle of a word. */
  lemma HeldBackStart(text: seq<Byte>)
    ensures LeadingSpaces(Decode(text[SplitPoint(text)..])) == 0
    ensures TrailingRun(Decode(text[..SplitPoint(text)]), Word) == 0
  {
    LastWordRune(text[..SplitPoint(text)]);
    HeldBackRune(text);
  }

  lemma HeldBackRune(text: seq<Byte>)
    ensures SplitPoint(text) < |text| ==> KindOf(FirstRune(text[SplitPoint(text)..])) != Space
  {
    var held := text[SplitPoint(text)..];
    if held != [] {
      FirstRuneIsScalar(held);
    }
  }

  /** A text that ends in a word rune ends in that rune's byte. */
  lemma {:induction false} LastWordRune(s: seq<Byte>)
    ensures TrailingRun(Decode(s), Word) > 0 ==> IsAsciiWordByte(s[|s| - 1])
    ensures Decode(s) == [] <==> s == []
    decreases |s|
  {
    if s != [] {
      var w := Width(s);
      var rest := Decode(s[w..]);
      LastWordRune(s[w..]);
      FirstRuneIsScalar(s);
      assert Decode(s) == [FirstRune(s)] + rest;
      if rest != [] {
        assert Decode(s)[|Decode(s)| - 1] == rest[|rest| - 1];
      }
    }
  }

  // ---------------------------------------------------------------------------------------------
  // The streaming counter
  // ---------------------------------------------------------------------------------------------

  /** What a Counter holds: tokens counted so far and bytes held back for the next piece. */
  datatype Meter = Meter(tokens: nat, pending: seq<Byte>)

  const EMPTY := Meter(0, [])

  /** One piece of text arrives. */
  function Fed(m: Meter, text: seq<Byte>): Meter {
    if text == [] then m
    else
      var buffered := m.pending + text;
      var split := SplitPoint(buffered);
      Meter(m.tokens + Count(Decode(buffered[..split])), buffered[split..])
  }

  function Reading(m: Meter): nat {
    m.tokens + Count(Decode(m.pending))
  }

  function FedAll(m: Meter, chunks: seq<seq<Byte>>): Meter
    decreases chunks
  {
    if chunks == [] then m else FedAll(Fed(m, chunks[0]), chunks[1..])
  }

  class Counter {
    var tokens: nat
    var pending: seq<Byte>

    function State(): Meter
      reads this
    {
      Meter(tokens, pending)
    }

    constructor ()
      ensures State() == EMPTY
    {
      tokens, pending := 0, [];
    }

    method Add(text: seq<Byte>)
      modifies this
      ensures State() == Fed(old(State()), text)
    {
      if text == [] {
        return;
      }
      ghost var whole := pending + text;
      var text := text;
      if |pending| > 0 {
        var buffered := pending;
        pending := [];
        text := buffered + text;
      }
      assert text == whole;
      var split := FindSplit(text);
      if split < |text| {
        pending := pending + text[split..];
        text := text[..split];
      }
      assert text == whole[..split] && pending == whole[split..];
      var counted := Scan(text);
      tokens := tokens + counted;
    }

    method AddTokens(count: int)
      modifies this
      ensures pending == old(pending)
      ensures tokens == old(tokens) + if count > 0 then count else 0
    {
      if count > 0 {
        tokens := tokens + count;
      }
    }

    method Total() returns (total: nat)
      ensures total == Reading(State())
    {
      total := tokens;
      if |pending| > 0 {
        var held := Scan(pending);
        total := total + held;
      }
    }
  }

  /** A text counts what its runes count, although the counter holds back its last word. */
  method CountText(text: seq<Byte>) returns (n: nat)
    ensures n == Count(Decode(text))
  {
    var counter := new Counter();
    counter.Add(text);
    n := counter.Total();
    OnePiece(text);
  }

  /** Counting bytes on both sides of a boundary. */
  lemma CountCut(a: seq<Byte>, b: seq<Byte>)
    requires IsBoundary(a + b, |a|) && TrailingRun(Decode(a), Word) == 0
    ensures Decode(a + b) == Decode(a) + Decode(b)
    ensures Count(Decode(a)) + Count(Decode(b)) ==
            Count(Decode(a + b)) + Surplus(TrailingRun(Decode(a), Space), LeadingSpaces(Decode(b)))
    ensures TrailingRun(Decode(a + b), Word) == TrailingRun(Decode(b), Word)
    ensures LeadingSpaces(Decode(b)) < |Decode(b)| ==>
              TrailingRun(Decode(a + b), Space) == TrailingRun(Decode(b), Space)
  {
    assert (a + b)[..|a|] == a && (a + b)[|a|..] == b;
    DecodeSplits(a + b, |a|);
    CountSplits(Decode(a), Decode(b));
  }

  lemma NoSurplus(a: nat)
    ensures Surplus(a, 0) == 0
  {
  }

  lemma OnePiece(text: seq<Byte>)
    ensures Reading(Fed(EMPTY, text)) == Count(Decode(text))
  {
    if text != [] {
      var split := SplitPoint(text);
      assert EMPTY.pending + text == text;
      FlushedAndHeld(text);
    }
  }

  lemma FlushedAndHeld(text: seq<Byte>)
    ensures Count(Decode(text[..SplitPoint(text)])) + Count(Decode(text[SplitPoint(text)..])) == Count(Decode(text))
  {
    var a, b := text[..SplitPoint(text)], text[SplitPoint(text)..];
    SplitPointIsBoundary(text, []);
    assert text + [] == text == a + b;
    HeldBackStart(text);
    CountCut(a, b);
    NoSurplus(TrailingRun(Decode(a), Space));
  }

  // ---------------------------------------------------------------------------------------------
  // Counting in pieces against counting at once
  // ---------------------------------------------------------------------------------------------

  function Join(chunks: seq<seq<Byte>>): seq<Byte> {
    if chunks == [] then [] else chunks[0] + Join(chunks[1..])
  }

  /** White-space runes directly before and directly after one flush: the counter has counted the
      bytes `counted` so far and now counts `piece`. */
  function SpacesBefore(counted: seq<Byte>): nat {
    TrailingRun(Decode(counted), Space)
  }

  function SpacesAfter(piece: seq<Byte>): nat {
    LeadingSpaces(Decode(piece))
  }

  /** The bytes that the next chunk lets the counter count. */
  function NextPiece(pending: seq<Byte>, chunk: seq<Byte>): seq<Byte> {
    if chunk == [] then [] else (pending + chunk)[..SplitPoint(pending + chunk)]
  }

  /** Over all flushes, the surplus of the white-space run that the flush cuts. */
  function Drift(counted: seq<Byte>, m: Meter, chunks: seq<seq<Byte>>): int
    decreases chunks
  {
    if chunks == [] then 0
    else
      var piece := NextPiece(m.pending, chunks[0]);
      Surplus(SpacesBefore(counted), SpacesAfter(piece)) + Drift(counted + piece, Fed(m, chunks[0]), chunks[1..])
  }

  /** How many flushes cut a white-space run. */
  function SpaceCuts(counted: seq<Byte>, m: Meter, chunks: seq<seq<Byte>>): nat
    decreases chunks
  {
    if chunks == [] then 0
    else
      var piece := NextPiece(m.pending, chunks[0]);
      (if SpacesBefore(counted) > 0 && SpacesAfter(piece) > 0 then 1 else 0)
      + SpaceCuts(counted + piece, Fed(m, chunks[0]), chunks[1..])
  }

  /** The bytes counted so far end at a boundary of the whole text and not in a word, and what is
      held back does not start with white space. */
  ghost predicate Between(counted: seq<Byte>, pending: seq<Byte>, rest: seq<Byte>) {
    && IsBoundary(counted + (pending + rest), |counted|)
    && TrailingRun(Decode(counted), Word) == 0
    && LeadingSpaces(Decode(pending)) == 0
  }

  /** A flush moves the boundary to the end of the piece it counts. */
  lemma FlushMovesBoundary(counted: seq<Byte>, buffered: seq<Byte>, rest: seq<Byte>)
    requires IsBoundary(counted + (buffered + rest), |counted|)
    ensures var piece, held := buffered[..SplitPoint(buffered)], buffered[SplitPoint(buffered)..];
            && IsBoundary((counted + piece) + (held + rest), |counted + piece|)
            && IsBoundary(counted + piece, |counted|)
            && counted + (buffered + rest) == (counted + piece) + (held + rest)
  {
    var split := SplitPoint(buffered);
    var piece, held := buffered[..split], buffered[split..];
    var whole := counted + (buffered + rest);
    assert whole == (counted + piece) + (held + rest);
    SplitPointIsBoundary(buffered, rest);
    BoundaryShift(counted, buffered + rest, split);
    BoundaryPrefix(whole, |counted|, |counted + piece|);
    assert whole[..|counted + piece|] == counted + piece;
  }

  lemma BetweenFlush(counted: seq<Byte>, buffered: seq<Byte>, rest: seq<Byte>)
    requires IsBoundary(counted + (buffered + rest), |counted|)
    requires TrailingRun(Decode(counted), Word) == 0
    ensures var piece, held := buffered[..SplitPoint(buffered)], buffered[SplitPoint(buffered)..];
            && Between(counted + piece, held, rest)
            && counted + (buffered + rest) == (counted + piece) + (held + rest)
            && Count(Decode(counted)) + Count(Decode(piece)) ==
               Count(Decode(counted + piece)) + Surplus(SpacesBefore(counted), SpacesAfter(piece))
            && (SpacesAfter(piece) < |Decode(piece)| ==> SpacesBefore(counted + piece) == SpacesBefore(piece))
  {
    FlushMovesBoundary(counted, buffered, rest);
    CountCut(counted, buffered[..SplitPoint(buffered)]);
    HeldBackStart(buffered);
  }

  lemma BetweenStep(counted: seq<Byte>, m: Meter, chunk: seq<Byte>, rest: seq<Byte>)
    requires Between(counted, m.pending, chunk + rest)
    ensures var piece := NextPiece(m.pending, chunk);
            && Between(counted + piece, Fed(m, chunk).pending, rest)
            && Fed(m, chunk).tokens == m.tokens + Count(Decode(piece))
            && Count(Decode(counted)) + Count(Decode(piece)) ==
               Count(Decode(counted + piece)) + Surplus(SpacesBefore(counted), SpacesAfter(piece))
            && (SpacesAfter(piece) < |Decode(piece)| ==> SpacesBefore(counted + piece) == SpacesBefore(piece))
            && counted + (m.pending + (chunk + rest)) == (counted + piece) + (Fed(m, chunk).pending + rest)
  {
    assert m.pending + (chunk + rest) == (m.pending + chunk) + rest;
    if chunk == [] {
      assert counted + [] == counted && chunk + rest == rest;
      NoSurplus(SpacesBefore(counted));
    } else {
      BetweenFlush(counted, m.pending + chunk, rest);
    }
  }

  lemma BoundaryShift(a: seq<Byte>, b: seq<Byte>, p: nat)
    requires p <= |b| && IsBoundary(a + b, |a|) && IsBoundary(b, p)
    ensures IsBoundary(a + b, |a| + p)
  {
    forall i | |a| <= i < |a| + p ensures i + Width((a + b)[i..]) <= |a| + p {
      assert (a + b)[i..] == b[i - |a|..];
    }
  }

  lemma BoundaryPrefix(s: seq<Byte>, p: nat, q: nat)
    requires p <= q <= |s| && IsBoundary(s, p)
    ensures IsBoundary(s[..q], p)
  {
    forall i | 0 <= i < p ensures i + Width(s[..q][i..]) <= p {
      assert s[..q][i..] == s[i..][..q - i];
      FirstRuneIsLocal(s[i..], q - i);
    }
  }

  /** Feeding chunks reads what the joined text counts, plus the drift. */
  lemma {:induction false} DriftFrom(counted: seq<Byte>, m: Meter, chunks: seq<seq<Byte>>)
    requires Between(counted, m.pending, Join(chunks))
    ensures Reading(FedAll(m, chunks)) - m.tokens ==
            Count(Decode(counted + (m.pending + Join(chunks)))) - Count(Decode(counted)) + Drift(counted, m, chunks)
    decreases |chunks|
  {
    if chunks == [] {
      assert m.pending + [] == m.pending;
      CountCut(counted, m.pending);
      NoSurplus(SpacesBefore(counted));
    } else {
      BetweenStep(counted, m, chunks[0], Join(chunks[1..]));
      DriftFrom(counted + NextPiece(m.pending, chunks[0]), Fed(m, chunks[0]), chunks[1..]);
    }
  }

  /** The streaming count of any partition of a text, in closed form. */
  lemma ChunkedCount(chunks: seq<seq<Byte>>)
    ensures Reading(FedAll(EMPTY, chunks)) == Count(Decode(Join(chunks))) + Drift([], EMPTY, chunks)
  {
    DriftFrom([], EMPTY, chunks);
    assert [] + ([] + Join(chunks)) == Join(chunks);
  }

  lemma {:induction false} DriftIsBounded(counted: seq<Byte>, m: Meter, chunks: seq<seq<Byte>>)
    ensures -(SpaceCuts(counted, m, chunks) as int) <= Drift(counted, m, chunks) <= SpaceCuts(counted, m, chunks)
    decreases |chunks|
  {
    if chunks != [] {
      var piece := NextPiece(m.pending, chunks[0]);
      SurplusBounds(SpacesBefore(counted), SpacesAfter(piece));
      DriftIsBounded(counted + piece, Fed(m, chunks[0]), chunks[1..]);
    }
  }

  /** Pieces do not change the count unless a flush cuts a white-space run, and change it by at most
      one token a cut. */
  lemma ChunkIndependence(chunks: seq<seq<Byte>>)
    ensures var drift := Reading(FedAll(EMPTY, chunks)) - Count(Decode(Join(chunks)));
            && -(SpaceCuts([], EMPTY, chunks) as int) <= drift <= SpaceCuts([], EMPTY, chunks)
            && (SpaceCuts([], EMPTY, chunks) == 0 ==> drift == 0)
  {
    ChunkedCount(chunks);
    DriftIsBounded([], EMPTY, chunks);
  }

  /** The count of two pieces in closed form. */
  lemma TwoPiecesDrift(first: seq<Byte>, second: seq<Byte>)
    requires first != []
    ensures Reading(FedAll(EMPTY, [first, second])) == Count(Decode(first + second)) +
            Surplus(SpacesBefore(first[..SplitPoint(first)]),
              SpacesAfter(NextPiece(first[SplitPoint(first)..], second)))
  {
    var chunks := [first, second];
    assert chunks[1..] == [second] && [second][1..] == [];
    assert Join([second]) == second && Join(chunks) == first + second;
    ChunkedCount(chunks);
    DriftOfTwo(first, second);
  }

  lemma DriftOfTwo(first: seq<Byte>, second: seq<Byte>)
    requires first != []
    ensures Drift([], EMPTY, [first, second]) ==
            Surplus(SpacesBefore(first[..SplitPoint(first)]),
              SpacesAfter(NextPiece(first[SplitPoint(first)..], second)))
  {
    var head, held := first[..SplitPoint(first)], first[SplitPoint(first)..];
    assert EMPTY.pending + first == first && [] + head == head;
    assert [first, second][1..] == [second] && [second][1..] == [];
    SurplusBounds(0, SpacesAfter(head));
    assert Drift([], EMPTY, [first, second]) == Drift(head, Fed(EMPTY, first), [second]);
    assert Drift(head, Fed(EMPTY, first), [second]) ==
           Surplus(SpacesBefore(head), SpacesAfter(NextPiece(held, second)));
  }

  /** Exactly when a text may be sent as two pieces: by the lengths, modulo four, of the white-space
      runs on both sides of the first flush. */
  lemma TwoPieces(first: seq<Byte>, second: seq<Byte>, before: nat, after: nat)
    requires first != []
    requires before == SpacesBefore(first[..SplitPoint(first)])
    requires after == SpacesAfter(NextPiece(first[SplitPoint(first)..], second))
    ensures Reading(FedAll(EMPTY, [first, second])) == Count(Decode(first + second))
            <==> 2 <= (before + 2) % 4 + (after + 2) % 4 <= 5
  {
    TwoPiecesDrift(first, second);
    SurplusBounds(before, after);
  }

  // ---------------------------------------------------------------------------------------------
  // The bound is attained
  // ---------------------------------------------------------------------------------------------

  const LETTER_A: Byte := 0x61
  const BLANK: Byte := 0x20

  /** n words, each followed by a gap in the same chunk and a gap in the next. */
  function Spaced(gap: seq<Byte>, n: nat): seq<seq<Byte>> {
    if n == 0 then [] else [[LETTER_A] + gap] + ([gap] + Spaced(gap, n - 1))
  }

  /** The flushes of one such word: the first cuts nothing, the second cuts k blanks from k. */
  ghost predicate CutsEvenly(gap: seq<Byte>, k: nat) {
    && gap != [] && k > 0
    && SplitPoint([LETTER_A] + gap) == |gap| + 1
    && SplitPoint(gap) == |gap|
    && SpacesAfter([LETTER_A] + gap) == 0 < |Decode([LETTER_A] + gap)|
    && SpacesBefore([LETTER_A] + gap) == k == SpacesAfter(gap)
  }

  lemma DecodeAscii(s: seq<Byte>)
    requires forall i :: 0 <= i < |s| ==> s[i] < 0x80
    ensures Decode(s) == s
  {
    if s != [] {
      DecodeAscii(s[1..]);
      assert s == [s[0]] + s[1..];
    }
  }

  lemma OneBlankCutsEvenly()
    ensures CutsEvenly([BLANK], 1)
  {
    var word := [LETTER_A, BLANK];
    assert [LETTER_A] + [BLANK] == word;
    assert WithoutWord(word, 2) == 2 && WithoutWord([BLANK], 1) == 1;
    DecodeAscii(word);
    DecodeAscii([BLANK]);
    CountSnoc([LETTER_A], BLANK);
    assert [BLANK][1..] == [];
  }

  lemma TwoBlanksCutEvenly()
    ensures CutsEvenly([BLANK, BLANK], 2)
  {
    var gap, word := [BLANK, BLANK], [LETTER_A, BLANK, BLANK];
    assert [LETTER_A] + gap == word;
    hide TrailingRun, LeadingSpaces, Decode;
    assert WithoutWord(word, 3) == 3 && WithoutWord(gap, 2) == 2;
    DecodeAscii(word);
    DecodeAscii(gap);
    TwoBlankRuns();
  }

  lemma TwoBlankRuns()
    ensures TrailingRun([LETTER_A, BLANK, BLANK], Space) == 2
    ensures LeadingSpaces([BLANK, BLANK]) == 2
  {
    CountSnoc([LETTER_A], BLANK);
    CountSnoc([LETTER_A] + [BLANK], BLANK);
    assert [LETTER_A] + [BLANK] + [BLANK] == [LETTER_A, BLANK, BLANK];
    assert [BLANK, BLANK][1..] == [BLANK] && [BLANK][1..] == [];
    assert LeadingSpaces([BLANK]) == 1;
  }

  lemma CutFacts(gap: seq<Byte>, k: nat)
    requires CutsEvenly(gap, k)
    ensures var word := [LETTER_A] + gap;
            SplitPoint(word) == |word| && SpacesAfter(word) == 0 < |Decode(word)| && SpacesBefore(word) == k
    ensures gap != [] && SplitPoint(gap) == |gap| && SpacesAfter(gap) == k > 0
  {
  }

  /** A chunk that is counted whole. */
  lemma WholeChunk(m: Meter, chunk: seq<Byte>)
    requires m.pending == [] && chunk != [] && SplitPoint(chunk) == |chunk|
    ensures NextPiece([], chunk) == chunk && Fed(m, chunk).pending == []
  {
    assert [] + chunk == chunk;
  }

  /** What one chunk contributes. */
  lemma FirstChunk(counted: seq<Byte>, m: Meter, chunk: seq<Byte>, more: seq<seq<Byte>>)
    requires NextPiece(m.pending, chunk) == chunk
    ensures Join([chunk] + more) == chunk + Join(more)
    ensures SpaceCuts(counted, m, [chunk] + more) ==
            (if SpacesBefore(counted) > 0 && SpacesAfter(chunk) > 0 then 1 else 0)
            + SpaceCuts(counted + chunk, Fed(m, chunk), more)
    ensures Drift(counted, m, [chunk] + more) ==
            Surplus(SpacesBefore(counted), SpacesAfter(chunk)) + Drift(counted + chunk, Fed(m, chunk), more)
  {
    assert ([chunk] + more)[1..] == more;
    hide Fed, NextPiece, SplitPoint, Surplus, Decode, TrailingRun, LeadingSpaces;
  }

  lemma FlushNothingCut(gap: seq<Byte>, k: nat, counted: seq<Byte>, m: Meter, later: seq<seq<Byte>>)
    returns (counted': seq<Byte>, m': Meter)
    requires CutsEvenly(gap, k) && m.pending == []
    requires Between(counted, [], Join([[LETTER_A] + gap] + later))
    ensures Between(counted', [], Join(later)) && m'.pending == [] && SpacesBefore(counted') == k
    ensures SpaceCuts(counted, m, [[LETTER_A] + gap] + later) == SpaceCuts(counted', m', later)
    ensures Drift(counted, m, [[LETTER_A] + gap] + later) == Drift(counted', m', later)
  {
    var word := [LETTER_A] + gap;
    counted', m' := counted + word, Fed(m, word);
    hide *;
    CutFacts(gap, k);
    WholeChunk(m, word);
    FirstChunk(counted, m, word, later);
    BetweenStep(counted, m, word, Join(later));
    NoSurplus(SpacesBefore(counted));
  }

  lemma FlushGapCut(gap: seq<Byte>, k: nat, counted: seq<Byte>, m: Meter, more: seq<seq<Byte>>)
    returns (counted': seq<Byte>, m': Meter)
    requires CutsEvenly(gap, k) && m.pending == [] && SpacesBefore(counted) == k
    requires Between(counted, [], Join([gap] + more))
    ensures Between(counted', [], Join(more)) && m'.pending == []
    ensures SpaceCuts(counted, m, [gap] + more) == 1 + SpaceCuts(counted', m', more)
    ensures Drift(counted, m, [gap] + more) == Surplus(k, k) + Drift(counted', m', more)
  {
    counted', m' := counted + gap, Fed(m, gap);
    hide *;
    CutFacts(gap, k);
    WholeChunk(m, gap);
    FirstChunk(counted, m, gap, more);
    BetweenStep(counted, m, gap, Join(more));
  }

  lemma {:induction false} SpacedDrift(gap: seq<Byte>, k: nat, n: nat, counted: seq<Byte>, m: Meter)
    requires CutsEvenly(gap, k) && m.pending == []
    requires Between(counted, [], Join(Spaced(gap, n)))
    ensures SpaceCuts(counted, m, Spaced(gap, n)) == n
    ensures Surplus(k, k) == 1 ==> Drift(counted, m, Spaced(gap, n)) == n
    ensures Surplus(k, k) == -1 ==> Drift(counted, m, Spaced(gap, n)) + n == 0
    decreases n
  {
    hide *;
    if n == 0 {
      SpacedNothing(gap, counted, m);
    } else {
      SpacedMore(gap, n);
      var counted1, m1 := FlushNothingCut(gap, k, counted, m, [gap] + Spaced(gap, n - 1));
      var counted2, m2 := FlushGapCut(gap, k, counted1, m1, Spaced(gap, n - 1));
      SpacedDrift(gap, k, n - 1, counted2, m2);
    }
  }

  lemma SpacedMore(gap: seq<Byte>, n: nat)
    requires n > 0
    ensures Spaced(gap, n) == [[LETTER_A] + gap] + ([gap] + Spaced(gap, n - 1))
  {
  }

  lemma SpacedNothing(gap: seq<Byte>, counted: seq<Byte>, m: Meter)
    ensures SpaceCuts(counted, m, Spaced(gap, 0)) == 0 == Drift(counted, m, Spaced(gap, 0))
  {
  }

  lemma SurplusOfGaps()
    ensures Surplus(1, 1) == -1 && Surplus(2, 2) == 1
  {
  }

  /** For every number of cuts there is a text that counts that many tokens too many in pieces, and
      one that counts that many too few. */
  lemma DriftIsAttained(n: nat) returns (over: seq<seq<Byte>>, under: seq<seq<Byte>>)
    ensures SpaceCuts([], EMPTY, over) == n && Reading(FedAll(EMPTY, over)) == Count(Decode(Join(over))) + n
    ensures SpaceCuts([], EMPTY, under) == n && Reading(FedAll(EMPTY, under)) + n == Count(Decode(Join(under)))
  {
    over, under := Spaced([BLANK, BLANK], n), Spaced([BLANK], n);
    hide *;
    SurplusOfGaps();
    TwoBlanksCutEvenly();
    OneBlankCutsEvenly();
    ChunkedCount(over);
    ChunkedCount(under);
    NothingYet(Join(over));
    NothingYet(Join(under));
    SpacedDrift([BLANK, BLANK], 2, n, [], EMPTY);
    SpacedDrift([BLANK], 1, n, [], EMPTY);
  }

  lemma NothingYet(rest: seq<Byte>)
    ensures Between([], EMPTY.pending, rest) && EMPTY.pending == []
  {
  }
}
