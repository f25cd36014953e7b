/** The output limit of internal/gateway/inference.go: trimming a text to a token budget by binary
    search, and cutting every field of a response that is over the hard cap. */
module OutputCap {
  import opened Utf8
  import opened Tokenizer

  /** A declared limit is enforced with a margin; zero means that nothing is enforced. */
  function OutputHardCap(limit: int): (cap: nat)
    ensures cap == 0 <==> limit <= 0
  {
    if limit <= 0 then 0 else limit + limit / 4 + 8
  }

  // ---------------------------------------------------------------------------------------------
  // Trimming one text
  // ---------------------------------------------------------------------------------------------

  /** Length of the longest prefix, of at most k runes, that counts at most limit tokens. */
  function LongestUpTo(rs: seq<Rune>, limit: nat, k: nat): (n: nat)
    requires k <= |rs|
    ensures n <= k
  {
    if k == 0 || Count(rs[..k]) <= limit then k else LongestUpTo(rs, limit, k - 1)
  }

  function LongestWithin(rs: seq<Rune>, limit: nat): (n: nat)
    ensures n <= |rs|
  {
    LongestUpTo(rs, limit, |rs|)
  }

  lemma {:induction false} LongestUpToIsLongest(rs: seq<Rune>, limit: nat, k: nat)
    requires k <= |rs|
    ensures var n := LongestUpTo(rs, limit, k);
            && Count(rs[..n]) <= limit
            && (forall j :: n < j <= k ==> Count(rs[..j]) > limit)
            && (n < k ==> Count(rs[..n]) == limit)
  {
    NothingCounts(rs);
    hide Count;
    if k > 0 {
      CountIsGradual(rs, k - 1, k);
      LongestUpToIsLongest(rs, limit, k - 1);
    }
  }

  lemma NothingCounts(rs: seq<Rune>)
    ensures Count(rs[..0]) == 0
  {
    assert rs[..0] == [];
  }

  /** The longest prefix is within the limit, every longer one is over it, and a proper prefix uses
      the limit up. */
  lemma LongestWithinIsLongest(rs: seq<Rune>, limit: nat)
    ensures Count(rs[..LongestWithin(rs, limit)]) <= limit
    ensures forall j :: LongestWithin(rs, limit) < j <= |rs| ==> Count(rs[..j]) > limit
    ensures LongestWithin(rs, limit) < |rs| ==> Count(rs[..LongestWithin(rs, limit)]) == limit
  {
    LongestUpToIsLongest(rs, limit, |rs|);
  }

  /** Binary search finds the boundary because counting is monotone in the prefix. */
  lemma LongestWithinBetween(rs: seq<Rune>, limit: nat, low: nat, high: nat)
    requires low <= high <= |rs|
    requires Count(rs[..low]) <= limit && (high < |rs| ==> Count(rs[..high + 1]) > limit)
    ensures low <= LongestWithin(rs, limit) <= high
  {
    hide *;
    var k := LongestWithin(rs, limit);
    LongestWithinIsLongest(rs, limit);
    if k > high {
      CountIsGradual(rs, high + 1, k);
    }
  }

  lemma AllScalarPrefix(rs: seq<Rune>, k: nat)
    requires AllScalar(rs) && k <= |rs|
    ensures AllScalar(rs[..k])
  {
  }

  /** What trimming returns. */
  function Trimmed(text: seq<Byte>, limit: int): seq<Byte> {
    if IsOver(text, limit) then
      DecodedIsScalar(text);
      Encode(Decode(text)[..LongestWithin(Decode(text), limit)])
    else text
  }

  predicate IsOver(text: seq<Byte>, limit: int) {
    limit > 0 && Count(Decode(text)) > limit
  }

  /** What the binary search has to find. */
  lemma TrimGoal(text: seq<Byte>, limit: int)
    ensures AllScalar(Decode(text))
    ensures IsOver(text, limit) <==> limit > 0 && Count(Decode(text)) > limit
    ensures !IsOver(text, limit) ==> Trimmed(text, limit) == text
    ensures IsOver(text, limit) ==> Trimmed(text, limit) == Encode(Decode(text)[..LongestWithin(Decode(text), limit)])
  {
    DecodedIsScalar(text);
  }

  method TrimToTokens(text: seq<Byte>, limit: int) returns (kept: seq<Byte>, cut: bool)
    ensures kept == Trimmed(text, limit) && cut == IsOver(text, limit)
  {
    hide *;
    TrimGoal(text, limit);
    if limit <= 0 {
      return text, false;
    }
    var whole := CountText(text);
    if whole <= limit {
      return text, false;
    }
    var runes := Decode(text);
    var low, high := 0, |runes|;
    NothingCounts(runes);
    while low < high
      invariant 0 <= low <= LongestWithin(runes, limit) <= high <= |runes|
    {
      var mid := (low + high + 1) / 2;
      AllScalarPrefix(runes, mid);
      var n := CountText(Encode(runes[..mid]));
      EncodeRoundTrip(runes[..mid]);
      if n <= limit {
        LongestWithinBetween(runes, limit, mid, |runes|);
        low := mid;
      } else {
        LongestWithinBetween(runes, limit, 0, mid - 1);
        high := mid - 1;
      }
    }
    AllScalarPrefix(runes, low);
    return Encode(runes[..low]), true;
  }

  /** Trimming keeps the longest run of whole runes within the limit; what it cuts counts exactly the
      limit, and trimming again changes nothing. */
  lemma TrimmedText(text: seq<Byte>, limit: int)
    requires limit > 0
    ensures Decode(Trimmed(text, limit)) <= Decode(text)
    ensures Count(Decode(Trimmed(text, limit))) == if IsOver(text, limit) then limit else Count(Decode(text))
    ensures forall j :: |Decode(Trimmed(text, limit))| < j <= |Decode(text)| ==> Count(Decode(text)[..j]) > limit
    ensures !IsOver(Trimmed(text, limit), limit)
  {
    var runes := Decode(text);
    if IsOver(text, limit) {
      DecodedIsScalar(text);
      LongestWithinIsLongest(runes, limit);
      EncodeRoundTrip(runes[..LongestWithin(runes, limit)]);
      assert runes[..|runes|] == runes;
    }
  }
}
