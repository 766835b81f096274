/** Bytes, the byte-wise XOR used by every NMEA checksum, and the fixed-width
    text renderings (`%02X`, `%X`, `%d`) that the codecs put on the wire.
    A Go string is a sequence of bytes, so text is `seq<byte>` throughout. */
module Bytes {

  /** A Go `byte` (`uint8`). */
  type byte = b: int | 0 <= b < 256

  const DOLLAR: byte := 36  // '$'
  const STAR: byte := 42    // '*'
  const COMMA: byte := 44   // ','
  const CR: byte := 13      // '\r'
  const LF: byte := 10      // '\n'

  /** The bytes of an ASCII string literal. */
  function Ascii(s: string): (r: seq<byte>)
    requires forall i :: 0 <= i < |s| ==> s[i] as int < 128
    ensures |r| == |s|
    ensures forall i :: 0 <= i < |s| ==> r[i] == s[i] as int
  {
    seq(|s|, i requires 0 <= i < |s| => s[i] as int)
  }

  /** Bitwise exclusive or of two naturals, one binary digit at a time from
      the least significant end. */
  function XorNat(a: nat, b: nat): nat
    decreases a + b
  {
    if a == 0 then b
    else if b == 0 then a
    else 2 * XorNat(a / 2, b / 2) + (if a % 2 == b % 2 then 0 else 1)
  }

  function Pow2(k: nat): (p: nat)
    ensures p >= 1
  {
    if k == 0 then 1 else 2 * Pow2(k - 1)
  }

  /** Exclusive or keeps values within k bits. */
  lemma {:induction false} XorNatBound(a: nat, b: nat, k: nat)
    requires a < Pow2(k) && b < Pow2(k)
    ensures XorNat(a, b) < Pow2(k)
    decreases k
  {
    if a != 0 && b != 0 {
      XorNatBound(a / 2, b / 2, k - 1);
    }
  }

  /** The low bit and the remaining bits of an exclusive or. */
  lemma XorNatDigits(a: nat, b: nat)
    ensures XorNat(a, b) % 2 == (a % 2 + b % 2) % 2
    ensures XorNat(a, b) / 2 == XorNat(a / 2, b / 2)
  {
  }

  /** One binary digit of an exclusive or, stated with the halves given:
      the form in which a chain of these evaluates XorNat on constants. */
  lemma XorNatHalves(a: nat, b: nat, ha: nat, hb: nat, da: nat, db: nat)
    requires da < 2 && db < 2 && a == 2 * ha + da && b == 2 * hb + db
    ensures XorNat(a, b) == 2 * XorNat(ha, hb) + (if da == db then 0 else 1)
  {
    assert a / 2 == ha && a % 2 == da && b / 2 == hb && b % 2 == db;
    XorNatDigits(a, b);
    var x := XorNat(a, b);
    assert x == 2 * (x / 2) + x % 2;
  }

  lemma {:induction false} XorNatSelf(a: nat)
    ensures XorNat(a, a) == 0
    decreases a
  {
    if a != 0 {
      XorNatHalves(a, a, a / 2, a / 2, a % 2, a % 2);
      XorNatSelf(a / 2);
    }
  }

  lemma {:induction false} XorNatComm(a: nat, b: nat)
    ensures XorNat(a, b) == XorNat(b, a)
    decreases a + b
  {
    if a != 0 && b != 0 {
      XorNatComm(a / 2, b / 2);
    }
  }

  lemma {:induction false} XorNatAssoc(a: nat, b: nat, c: nat)
    ensures XorNat(XorNat(a, b), c) == XorNat(a, XorNat(b, c))
    decreases a + b + c
  {
    if a != 0 || b != 0 || c != 0 {
      var l := XorNat(XorNat(a, b), c);
      var r := XorNat(a, XorNat(b, c));
      XorNatDigits(a, b);
      XorNatDigits(b, c);
      XorNatDigits(XorNat(a, b), c);
      XorNatDigits(a, XorNat(b, c));
      XorNatAssoc(a / 2, b / 2, c / 2);
      assert l / 2 == r / 2 && l % 2 == r % 2;
    }
  }

  /** Go's `^` on two bytes. */
  function Xor(a: byte, b: byte): byte
  {
    XorNatBound(a, b, 8);
    XorNat(a, b)
  }

  lemma XorZero(a: byte)
    ensures Xor(0, a) == a && Xor(a, 0) == a
  {
  }

  lemma XorAssoc(a: byte, b: byte, c: byte)
    ensures Xor(Xor(a, b), c) == Xor(a, Xor(b, c))
  {
    XorNatAssoc(a, b, c);
  }

  lemma XorComm(a: byte, b: byte)
    ensures Xor(a, b) == Xor(b, a)
  {
    XorNatComm(a, b);
  }

  lemma XorSelf(a: byte)
    ensures Xor(a, a) == 0
  {
    XorNatSelf(a);
  }

  /** The running XOR of a byte sequence, accumulated left to right
      (`checksum ^= s[i]` for i = 0 .. |s|-1, starting from 0). */
  function XorAll(s: seq<byte>): byte
  {
    if s == [] then 0 else Xor(XorAll(s[..|s| - 1]), s[|s| - 1])
  }

  lemma {:induction false} XorAllAppend(a: seq<byte>, b: seq<byte>)
    ensures XorAll(a + b) == Xor(XorAll(a), XorAll(b))
    decreases |b|
  {
    if b == [] {
      assert a + b == a;
      XorZero(XorAll(a));
    } else {
      var b' := b[..|b| - 1];
      assert (a + b)[..|a + b| - 1] == a + b';
      XorAllAppend(a, b');
      XorAssoc(XorAll(a), XorAll(b'), b[|b| - 1]);
    }
  }

  /** One step of the accumulation loop: appending a byte XORs it in. */
  lemma XorAllSnoc(s: seq<byte>, b: byte)
    ensures XorAll(s + [b]) == Xor(XorAll(s), b)
  {
    assert (s + [b])[..|s + [b]| - 1] == s;
  }

  /** A byte that appears twice in a row at the end cancels. */
  lemma XorAllCancelPair(s: seq<byte>, x: byte)
    ensures XorAll(s + [x, x]) == XorAll(s)
  {
    assert s + [x, x] == (s + [x]) + [x];
    XorAllSnoc(s + [x], x);
    XorAllSnoc(s, x);
    XorAssoc(XorAll(s), x, x);
    XorSelf(x);
    XorZero(XorAll(s));
  }

  lemma XorAllPair(a: byte, b: byte)
    ensures XorAll([a, b]) == Xor(a, b)
  {
    assert [a, b] == [a] + [b] && [a] == [] + [a];
    XorAllSnoc([a], b);
    XorAllSnoc([], a);
    XorZero(a);
  }

  /** The XOR of n copies of one byte: the byte when n is odd, 0 when even. */
  lemma {:induction false} XorAllRepeat(x: byte, n: nat)
    ensures XorAll(seq(n, _ => x)) == if n % 2 == 0 then 0 else x
  {
    if n > 0 {
      assert seq(n, _ => x)[..n - 1] == seq(n - 1, _ => x);
      XorAllRepeat(x, n - 1);
      XorSelf(x);
      XorZero(x);
    }
  }

  /** Extending a slice by one byte XORs that byte in. */
  lemma XorAllStep(s: seq<byte>, start: nat, i: nat)
    requires start <= i < |s|
    ensures XorAll(s[start..i + 1]) == Xor(XorAll(s[start..i]), s[i])
  {
    assert s[start..i + 1] == s[start..i] + [s[i]];
    XorAllSnoc(s[start..i], s[i]);
  }

  predicate IsUpperHexDigit(c: byte)
  {
    48 <= c <= 57 || 65 <= c <= 70  // '0'..'9' or 'A'..'F'
  }

  predicate IsDecimalDigit(c: byte)
  {
    48 <= c <= 57
  }

  /** The upper-case hexadecimal digit of n (0 <= n < 16). */
  function HexDigit(n: int): (c: byte)
    requires 0 <= n < 16
    ensures IsUpperHexDigit(c) && HexValue(c) == n
  {
    if n < 10 then 48 + n else 65 + (n - 10)
  }

  /** The value of an upper-case hexadecimal digit. */
  function HexValue(c: byte): (n: int)
    requires IsUpperHexDigit(c)
    ensures 0 <= n < 16
  {
    if c <= 57 then c - 48 else c - 65 + 10
  }

  /** `%02X` of a byte: exactly two upper-case hexadecimal digits, most
      significant first, which read back as the byte. */
  function Hex2(b: byte): (r: seq<byte>)
    ensures |r| == 2 && IsUpperHexDigit(r[0]) && IsUpperHexDigit(r[1])
    ensures HexValue(r[0]) * 16 + HexValue(r[1]) == b
  {
    [HexDigit(b / 16), HexDigit(b % 16)]
  }

  /** Hexadecimal digits are neither '$', '*', ',' nor line terminators. */
  lemma HexDigitIsPlain(c: byte)
    requires IsUpperHexDigit(c)
    ensures c != DOLLAR && c != STAR && c != COMMA && c != CR && c != LF
  {
  }

  /** `%d` of a natural number: its decimal digits, without leading zeros. */
  function Decimal(n: nat): (r: seq<byte>)
    ensures |r| >= 1 && (forall i :: 0 <= i < |r| ==> IsDecimalDigit(r[i]))
    ensures r[0] == 48 ==> n == 0
  {
    if n < 10 then [48 + n] else Decimal(n / 10) + [48 + n % 10]
  }

  predicate AllDecimalDigits(s: seq<byte>)
  {
    forall i :: 0 <= i < |s| ==> IsDecimalDigit(s[i])
  }

  /** The number that a string of decimal digits denotes. */
  function DecimalValue(s: seq<byte>): (n: nat)
    requires AllDecimalDigits(s)
  {
    if s == [] then 0 else DecimalValue(s[..|s| - 1]) * 10 + (s[|s| - 1] - 48)
  }

  lemma {:induction false} DecimalRoundTrip(n: nat)
    ensures DecimalValue(Decimal(n)) == n
  {
    if n >= 10 {
      DecimalRoundTrip(n / 10);
      var d := Decimal(n);
      assert d[..|d| - 1] == Decimal(n / 10);
    }
  }

  /** `%X` of a byte slice: two upper-case digits per byte, no separators. */
  function HexData(d: seq<byte>): (r: seq<byte>)
    ensures |r| == 2 * |d|
    ensures forall i :: 0 <= i < |r| ==> IsUpperHexDigit(r[i])
  {
    if d == [] then [] else Hex2(d[0]) + HexData(d[1..])
  }

  /** Reads pairs of upper-case hexadecimal digits back into bytes; None for
      an odd length or a character that is not such a digit. */
  function HexDecode(s: seq<byte>): (r: Option<seq<byte>>)
    ensures r.Some? ==> 2 * |r.value| == |s|
    decreases |s|
  {
    if s == [] then Some([])
    else if |s| < 2 || !IsUpperHexDigit(s[0]) || !IsUpperHexDigit(s[1]) then None
    else match HexDecode(s[2..])
      case None => None
      case Some(rest) => Some([HexValue(s[0]) * 16 + HexValue(s[1])] + rest)
  }

  lemma {:induction false} HexRoundTrip(d: seq<byte>)
    ensures HexDecode(HexData(d)) == Some(d)
  {
    if d != [] {
      HexRoundTrip(d[1..]);
      var h := HexData(d);
      assert h[2..] == HexData(d[1..]);
      assert h[0] == Hex2(d[0])[0] && h[1] == Hex2(d[0])[1];
      assert HexValue(h[0]) * 16 + HexValue(h[1]) == d[0];
      assert [d[0]] + d[1..] == d;
    }
  }

  /** Only the text HexData writes decodes: the decoding is canonical. */
  lemma {:induction false} HexDecodeCanonical(s: seq<byte>)
    requires HexDecode(s).Some?
    ensures HexData(HexDecode(s).value) == s
    decreases |s|
  {
    if s != [] {
      var d := HexDecode(s).value;
      HexDecodeCanonical(s[2..]);
      var v := HexValue(s[0]) * 16 + HexValue(s[1]);
      assert d[0] == v && d[1..] == HexDecode(s[2..]).value;
      HexDigitOfValue(s[0]);
      HexDigitOfValue(s[1]);
      assert Hex2(v) == s[..2];
      assert s == s[..2] + s[2..];
    }
  }

  /** A digit is the digit of its value. */
  lemma HexDigitOfValue(c: byte)
    requires IsUpperHexDigit(c)
    ensures HexDigit(HexValue(c)) == c
  {
  }

  datatype Option<T> = None | Some(value: T)
}
