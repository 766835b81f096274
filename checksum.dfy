/** nmea0183/checksum.go: the older NMEA 0183 checksum, used by the GGA
    generator in the same package. It XORs every byte from index 1 to the end,
    without looking at what index 0 holds and without stopping at a '*'. */
module Nmea0183Checksum {
  import opened Bytes
  import opened NmeaUtil

  /** The value calculateChecksum accumulates: index 0 is skipped. */
  function LegacyChecksum(s: seq<byte>): byte
  {
    if s == [] then 0 else XorAll(s[1..])
  }

  /** calculateChecksum: `%02X` of the XOR of sentence[1..]. */
  method CalculateChecksum(sentence: seq<byte>) returns (r: seq<byte>)
    ensures r == Hex2(LegacyChecksum(sentence))
    ensures |r| == 2 && IsUpperHexDigit(r[0]) && IsUpperHexDigit(r[1])
  {
    var checksum: byte := 0;
    if |sentence| <= 1 {
      return Hex2(checksum);
    }
    var i := 1;
    while i < |sentence|
      invariant 1 <= i <= |sentence|
      invariant checksum == XorAll(sentence[1..i])
    {
      XorAllStep(sentence, 1, i);
      checksum := Xor(checksum, sentence[i]);
      i := i + 1;
    }
    assert sentence[1..i] == sentence[1..];
    r := Hex2(checksum);
  }

  /** Strings of length 0 or 1 have nothing after index 0, so they get "00". */
  lemma ShortSentenceGivesZeroDigits(s: seq<byte>)
    requires |s| <= 1
    ensures Hex2(LegacyChecksum(s)) == [48, 48]
  {
    if s != [] {
      assert s[1..] == [];
    }
  }

  /** Whatever byte is at index 0 is skipped, '$' or not. */
  lemma FirstByteIgnored(x: byte, y: byte, t: seq<byte>)
    ensures LegacyChecksum([x] + t) == LegacyChecksum([y] + t) == XorAll(t)
  {
    assert ([x] + t)[1..] == t;
    assert ([y] + t)[1..] == t;
  }

  /** On a sentence that starts with '$' and holds no '*', the older checksum
      and the one AppendChecksum appends are the same byte. */
  lemma AgreesWithAppendChecksum(s: seq<byte>)
    requires |s| >= 1 && s[0] == DOLLAR && STAR !in s
    ensures LegacyChecksum(s) == Checksum(s)
    ensures Hex2(LegacyChecksum(s)) == Hex2(Checksum(s))
  {
    var body := s[1..];
    assert STAR !in body by {
      forall j | 0 <= j < |body|
        ensures body[j] != STAR
      {
        assert body[j] == s[j + 1];
      }
    }
    assert [] + [DOLLAR] + body + [] == s;
    ChecksumOfBody([], body, []);
  }

  /** A '*' is XORed in like any other byte, so the two checksums part ways
      as soon as the sentence holds one: `$*` gives 0x2A here and 0 there. */
  lemma StarIsIncluded()
    ensures LegacyChecksum([DOLLAR, STAR]) == STAR
    ensures Checksum([DOLLAR, STAR]) == 0
  {
    assert [DOLLAR, STAR][1..] == [STAR];
    XorAllSnoc([], STAR);
    XorZero(STAR);
    ChecksumOfBody([], [], [STAR]);
    assert [] + [DOLLAR] + [] + [STAR] == [DOLLAR, STAR];
  }

  /** `strings.Split(s, sep)` for a one-byte separator: the pieces between
      separators, always at least one. */
  function SplitOn(s: seq<byte>, sep: byte): (parts: seq<seq<byte>>)
    ensures |parts| >= 1
    decreases |s|
  {
    if s == [] then [[]]
    else
      var rest := SplitOn(s[1..], sep);
      if s[0] == sep then [[]] + rest else [[s[0]] + rest[0]] + rest[1..]
  }

  /** Without a separator, Split returns the whole string as its only piece. */
  lemma {:induction false} SplitWithoutSeparator(s: seq<byte>, sep: byte)
    requires sep !in s
    ensures SplitOn(s, sep) == [s]
    decreases |s|
  {
    if s != [] {
      assert sep !in s[1..];
      SplitWithoutSeparator(s[1..], sep);
      assert [s[0]] + s[1..] == s;
    }
  }

  /** The first piece of Split is everything before the first separator. */
  lemma {:induction false} SplitAtFirst(a: seq<byte>, sep: byte, b: seq<byte>)
    requires sep !in a
    ensures SplitOn(a + [sep] + b, sep) == [a] + SplitOn(b, sep)
    decreases |a|
  {
    var s := a + [sep] + b;
    if a == [] {
      assert s[1..] == b;
    } else {
      assert s[1..] == a[1..] + [sep] + b;
      assert sep !in a[1..];
      SplitAtFirst(a[1..], sep, b);
      assert [a[0]] + a[1..] == a;
    }
  }

  /** The check nmea0183/gga_test.go applies to a generated sentence: split at
      '*' into exactly two pieces, drop the first byte of the first piece,
      put a '$' in front and recompute; the second piece must be those digits. */
  predicate PassesSplitCheck(g: seq<byte>)
  {
    var parts := SplitOn(g, STAR);
    |parts| == 2 && |parts[0]| >= 1 &&
    parts[1] == Hex2(LegacyChecksum([DOLLAR] + parts[0][1..]))
  }

  /** What GenerateGGAData does with a formatted body, `body*HH` with HH from
      calculateChecksum, always passes that check when the body holds no '*'
      and is not empty (the check drops its first byte). */
  lemma GeneratedSentencePasses(body: seq<byte>)
    requires |body| >= 1 && STAR !in body
    ensures PassesSplitCheck(body + [STAR] + Hex2(LegacyChecksum(body)))
  {
    var h := Hex2(LegacyChecksum(body));
    HexDigitIsPlain(h[0]);
    HexDigitIsPlain(h[1]);
    assert STAR !in h;
    SplitAtFirst(body, STAR, h);
    SplitWithoutSeparator(h, STAR);
    assert [body[0]] + body[1..] == body;
    FirstByteIgnored(body[0], DOLLAR, body[1..]);
  }
}
