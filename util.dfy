/** pkg/nmea0183/util/util.go: the checksum that NMEA 0183 sentence generators
    append, and the integer random-range helper. */
module NmeaUtil {
  import opened Bytes

  /** Where the first scan of AppendChecksum stops, searching from k: just past
      the first '$' at or after k, or |s| when there is none. */
  function StartFrom(s: seq<byte>, k: nat): (i: nat)
    requires k <= |s|
    ensures k <= i <= |s|
    decreases |s| - k
  {
    if k == |s| then |s| else if s[k] == DOLLAR then k + 1 else StartFrom(s, k + 1)
  }

  /** Where the second scan stops, searching from k: at the first '*' at or
      after k, or |s| when there is none. */
  function EndFrom(s: seq<byte>, k: nat): (e: nat)
    requires k <= |s|
    ensures k <= e <= |s|
    decreases |s| - k
  {
    if k == |s| || s[k] == STAR then k else EndFrom(s, k + 1)
  }

  /** The first scan stops just past a '$', having passed no other, or at the
      end when there is none. */
  lemma {:induction false} StartFromMeaning(s: seq<byte>, k: nat)
    requires k <= |s|
    ensures var i := StartFrom(s, k);
            (k < i && s[i - 1] == DOLLAR && forall j :: k <= j < i - 1 ==> s[j] != DOLLAR) ||
            (i == |s| && forall j :: k <= j < |s| ==> s[j] != DOLLAR)
    decreases |s| - k
  {
    if k < |s| && s[k] != DOLLAR {
      StartFromMeaning(s, k + 1);
    }
  }

  /** The second scan stops at the first '*' after k, or at the end. */
  lemma {:induction false} EndFromMeaning(s: seq<byte>, k: nat)
    requires k <= |s|
    ensures var e := EndFrom(s, k);
            (forall j :: k <= j < e ==> s[j] != STAR) && (e < |s| ==> s[e] == STAR)
    decreases |s| - k
  {
    if k < |s| && s[k] != STAR {
      EndFromMeaning(s, k + 1);
    }
  }

  /** The index just past the first '$' of a sentence, or |s| without one. */
  function BodyStart(s: seq<byte>): nat
  {
    StartFrom(s, 0)
  }

  /** The checksum AppendChecksum computes: the XOR of the bytes after the
      first '$' up to, not including, the next '*' or the end. */
  function Checksum(s: seq<byte>): byte
  {
    var i := StartFrom(s, 0);
    XorAll(s[i..EndFrom(s, i)])
  }

  /** The sentence with `*HH` appended, HH the checksum in upper-case hex. */
  method AppendChecksum(sentence: seq<byte>) returns (r: seq<byte>)
    ensures r == sentence + [STAR] + Hex2(Checksum(sentence))
  {
    var checksum: byte := 0;
    var i := 0;
    while i < |sentence|
      invariant 0 <= i <= |sentence|
      invariant StartFrom(sentence, i) == StartFrom(sentence, 0)
    {
      if sentence[i] == DOLLAR {
        i := i + 1;
        break;
      }
      i := i + 1;
    }
    ghost var start := i;
    while i < |sentence| && sentence[i] != STAR
      invariant start <= i <= |sentence|
      invariant EndFrom(sentence, i) == EndFrom(sentence, start)
      invariant checksum == XorAll(sentence[start..i])
    {
      XorAllStep(sentence, start, i);
      checksum := Xor(checksum, sentence[i]);
      i := i + 1;
    }
    r := sentence + [STAR] + Hex2(checksum);
  }

  /** The checksum is the XOR of exactly the body between the first '$' and
      the next '*' (or the end); whatever precedes that '$' is ignored. */
  lemma ChecksumOfBody(prefix: seq<byte>, body: seq<byte>, rest: seq<byte>)
    requires DOLLAR !in prefix && STAR !in body
    requires rest == [] || rest[0] == STAR
    ensures Checksum(prefix + [DOLLAR] + body + rest) == XorAll(body)
  {
    var s := prefix + [DOLLAR] + body + rest;
    assert forall j :: 0 <= j < |prefix| ==> s[j] == prefix[j];
    FirstDollarSplit(s, |prefix|);
    var i := |prefix| + 1;
    assert s[i..i + |body|] == body;
    assert s[i + |body|..] == rest;
    BodyUpTo(s, |prefix|, i + |body|);
  }

  /** A sentence without '$' gets the checksum 0, so `*00` is appended. */
  lemma NoDollarChecksumIsZero(s: seq<byte>)
    requires DOLLAR !in s
    ensures Checksum(s) == 0 && Hex2(Checksum(s)) == [48, 48]
  {
    StartFromMeaning(s, 0);
  }

  /** Appending a checksum and then checksumming again yields the same digits:
      the body scan stops at the '*' that the first application added. */
  lemma ReapplyGivesSameDigits(s: seq<byte>)
    ensures Checksum(s + [STAR] + Hex2(Checksum(s))) == Checksum(s)
  {
    var h := Hex2(Checksum(s));
    var t := s + [STAR] + h;
    HexDigitIsPlain(h[0]);
    HexDigitIsPlain(h[1]);
    if DOLLAR in s {
      var d := FirstDollar(s);
      FirstDollarSplit(s, d);
      FirstDollarSplit(t, d);
      var e := EndFrom(s, d + 1);
      EndFromMeaning(s, d + 1);
      BodyUpTo(s, d, e);
      assert s[d + 1..e] == t[d + 1..e];
      BodyUpTo(t, d, e);
    } else {
      NoDollarChecksumIsZero(s);
      assert DOLLAR !in t;
      NoDollarChecksumIsZero(t);
    }
  }

  /** The index of the first '$' in a sequence that holds one. */
  function FirstDollar(s: seq<byte>): (d: nat)
    requires DOLLAR in s
    ensures d < |s| && s[d] == DOLLAR && forall j :: 0 <= j < d ==> s[j] != DOLLAR
  {
    if s[0] == DOLLAR then 0 else 1 + FirstDollar(s[1..])
  }

  /** The first scan stops just past the first '$'. */
  lemma FirstDollarSplit(s: seq<byte>, d: nat)
    requires d < |s| && s[d] == DOLLAR && forall j :: 0 <= j < d ==> s[j] != DOLLAR
    ensures StartFrom(s, 0) == d + 1
  {
    StartFromMeaning(s, 0);
  }

  /** The second scan, started just past the '$' at d, stops at e when the
      bytes in between hold no '*' and e is the end or a '*'. */
  lemma BodyUpTo(s: seq<byte>, d: nat, e: nat)
    requires d < e <= |s|
    requires StartFrom(s, 0) == d + 1
    requires forall j :: d + 1 <= j < e ==> s[j] != STAR
    requires e == |s| || s[e] == STAR
    ensures Checksum(s) == XorAll(s[d + 1..e])
  {
    EndFromMeaning(s, d + 1);
  }

  /** The "Empty fields" input of util_test.go: `$GPGGA` and fifteen commas. */
  const EMPTY_FIELDS: seq<byte> := [DOLLAR, 71, 80, 71, 71, 65] + seq(15, _ => COMMA)

  /** The three byte XORs the vector below needs, evaluated digit by digit. */
  lemma Xor71And80()
    ensures Xor(71, 80) == 23
  {
    XorNatHalves(71, 80, 35, 40, 1, 0);
    XorNatHalves(35, 40, 17, 20, 1, 0);
    XorNatHalves(17, 20, 8, 10, 1, 0);
    XorNatHalves(8, 10, 4, 5, 0, 0);
    XorNatHalves(4, 5, 2, 2, 0, 1);
    XorNatHalves(2, 2, 1, 1, 0, 0);
    XorNatHalves(1, 1, 0, 0, 1, 1);
  }

  lemma Xor23And65()
    ensures Xor(23, 65) == 86
  {
    XorNatHalves(23, 65, 11, 32, 1, 1);
    XorNatHalves(11, 32, 5, 16, 1, 0);
    XorNatHalves(5, 16, 2, 8, 1, 0);
    XorNatHalves(2, 8, 1, 4, 0, 0);
    XorNatHalves(1, 4, 0, 2, 1, 0);
  }

  lemma Xor86And44()
    ensures Xor(86, 44) == 122
  {
    XorNatHalves(86, 44, 43, 22, 0, 0);
    XorNatHalves(43, 22, 21, 11, 1, 0);
    XorNatHalves(21, 11, 10, 5, 1, 1);
    XorNatHalves(10, 5, 5, 2, 0, 1);
    XorNatHalves(5, 2, 2, 1, 1, 0);
    XorNatHalves(2, 1, 1, 0, 0, 1);
  }

  /** `GPGG` XORs to 0x17: the last two G's cancel. */
  lemma GpggXor()
    ensures XorAll([71, 80, 71, 71]) == 23
  {
    Xor71And80();
    XorAllPair(71, 80);
    XorAllCancelPair([71, 80], 71);
    assert [71, 80] + [71, 71] == [71, 80, 71, 71];
  }

  /** The talker and type `GPGGA` XOR to 0x56. */
  lemma GpggaXor()
    ensures XorAll([71, 80, 71, 71, 65]) == 0x56
  {
    GpggXor();
    Xor23And65();
    XorAllSnoc([71, 80, 71, 71], 65);
    assert [71, 80, 71, 71] + [65] == [71, 80, 71, 71, 65];
  }

  /** Its checksum is 0x7A, so AppendChecksum appends `*7A`. */
  lemma EmptyFieldsVector()
    ensures Checksum(EMPTY_FIELDS) == 0x7A && Hex2(Checksum(EMPTY_FIELDS)) == [55, 65]
  {
    var body := [71, 80, 71, 71, 65] + seq(15, _ => COMMA);
    GpggaXor();
    XorAllRepeat(COMMA, 15);
    XorAllAppend([71, 80, 71, 71, 65], seq(15, _ => COMMA));
    Xor86And44();
    assert EMPTY_FIELDS == [] + [DOLLAR] + body + [];
    ChecksumOfBody([], body, []);
  }

  /** RandomInt's result for a given draw of `rand.Intn(max - min + 1)`,
      which Go allows only for a positive bound: it lies in [min, max]. */
  function RandomInt(min: int, max: int, draw: int): (r: int)
    requires 0 <= draw < max - min + 1
    ensures min <= r <= max
  {
    min + draw
  }
}
