/** The text frame `$PNMEA2K,<pgn>,<len>,<HEX>*<HH>\r\n` that
    formatPGNMessage (pkg/network/tcp2000.go) builds for an NMEA 2000 message,
    and a parser that reads one back. The checksum covers the header after
    the '$' and then the raw payload bytes, not their hexadecimal text. */
module PgnFrame {
  import opened Bytes
  import opened PgnTypes

  /** `$PNMEA2K,` */
  const PREFIX: seq<byte> := [36, 80, 78, 77, 69, 65, 50, 75, 44]

  /** `fmt.Sprintf("$PNMEA2K,%d,%d,", msg.PGN, len(msg.Data))` */
  function Header(m: Message): seq<byte>
  {
    PREFIX + Decimal(m.pgn) + [COMMA] + Decimal(|m.data|) + [COMMA]
  }

  /** The checksum: one accumulator over the header bytes after '$' and then
      over the payload bytes. */
  function FrameChecksum(m: Message): byte
  {
    XorAll(Header(m)[1..] + m.data)
  }

  /** The same byte, as the XOR of the two stages. */
  lemma FrameChecksumByStages(m: Message)
    ensures FrameChecksum(m) == Xor(XorAll(Header(m)[1..]), XorAll(m.data))
  {
    XorAllAppend(Header(m)[1..], m.data);
  }

  /** The whole frame: header, `%X` of the payload, `*`, `%02X` of the
      checksum, CR LF. */
  function Frame(m: Message): seq<byte>
  {
    Header(m) + HexData(m.data) + [STAR] + (Hex2(FrameChecksum(m)) + [CR, LF])
  }

  /** formatPGNMessage. */
  method FormatPgnMessage(msg: Message) returns (r: seq<byte>)
    ensures r == Frame(msg)
  {
    var checksum: byte := 0;
    var data := Header(msg);
    var i := 1;
    while i < |data|
      invariant 1 <= i <= |data|
      invariant checksum == XorAll(data[1..i])
    {
      XorAllStep(data, 1, i);
      checksum := Xor(checksum, data[i]);
      i := i + 1;
    }
    assert data[1..i] == data[1..] + msg.data[..0];
    var j := 0;
    while j < |msg.data|
      invariant 0 <= j <= |msg.data|
      invariant checksum == XorAll(data[1..] + msg.data[..j])
    {
      assert data[1..] + msg.data[..j + 1] == (data[1..] + msg.data[..j]) + [msg.data[j]];
      XorAllSnoc(data[1..] + msg.data[..j], msg.data[j]);
      checksum := Xor(checksum, msg.data[j]);
      j := j + 1;
    }
    assert msg.data[..j] == msg.data;
    r := data + HexData(msg.data) + [STAR] + (Hex2(checksum) + [CR, LF]);
  }

  /** The first position of x in s, if any. */
  function IndexOf(s: seq<byte>, x: byte): (r: Option<nat>)
    ensures r.Some? ==> r.value < |s| && s[r.value] == x && x !in s[..r.value]
    ensures r.None? ==> x !in s
  {
    if s == [] then None
    else if s[0] == x then Some(0)
    else match IndexOf(s[1..], x)
      case None => None
      case Some(i) =>
        assert s[..i + 1] == [s[0]] + s[1..][..i];
        Some(i + 1)
  }

  /** The first x of `a + [x] + b` is the one after a when a holds none. */
  lemma IndexOfAfter(a: seq<byte>, x: byte, b: seq<byte>)
    requires x !in a
    ensures IndexOf(a + [x] + b, x) == Some(|a|)
  {
    var s := a + [x] + b;
    assert s[|a|] == x;
    assert forall j :: 0 <= j < |a| ==> s[j] == a[j];
    assert forall j :: |a| < j <= |s| ==> s[..j][|a|] == x;
  }

  /** `strings.Cut`-style split at the first sep: the text before and after. */
  function CutAt(s: seq<byte>, sep: byte): Option<(seq<byte>, seq<byte>)>
  {
    match IndexOf(s, sep)
    case None => None
    case Some(i) => Some((s[..i], s[i + 1..]))
  }

  lemma CutAtJoin(a: seq<byte>, sep: byte, b: seq<byte>)
    requires sep !in a
    ensures CutAt(a + [sep] + b, sep) == Some((a, b))
  {
    IndexOfAfter(a, sep, b);
    var s := a + [sep] + b;
    assert s[..|a|] == a && s[|a| + 1..] == b;
  }

  lemma CutAtSplits(s: seq<byte>, sep: byte)
    requires CutAt(s, sep).Some?
    ensures s == CutAt(s, sep).value.0 + [sep] + CutAt(s, sep).value.1
  {
    var i := IndexOf(s, sep).value;
    assert s == s[..i] + [s[i]] + s[i + 1..];
  }

  /** A `%d` field: a non-empty run of digits written without leading zeros. */
  function ParseDecimal(t: seq<byte>): (r: Option<nat>)
    ensures r.Some? ==> Decimal(r.value) == t
  {
    if |t| >= 1 && AllDecimalDigits(t) && Decimal(DecimalValue(t)) == t
    then Some(DecimalValue(t)) else None
  }

  lemma ParseDecimalOfDecimal(n: nat)
    ensures ParseDecimal(Decimal(n)) == Some(n)
  {
    DecimalRoundTrip(n);
  }

  /** The message that the four fields of a frame denote, when they are
      well-formed and agree with each other. */
  function ParseFields(pgnText: seq<byte>, lenText: seq<byte>, hex: seq<byte>, tail: seq<byte>): Option<Message>
  {
    match (ParseDecimal(pgnText), ParseDecimal(lenText), HexDecode(hex))
    case (Some(p), Some(n), Some(d)) =>
      if p < 0x1_0000_0000 && n == |d| && tail == Hex2(FrameChecksum(Message(p, d))) + [CR, LF]
      then Some(Message(p, d)) else None
    case _ => None
  }

  /** Reads a frame back into its message. It accepts exactly the frames
      formatPGNMessage writes: canonical numbers, the length field equal to
      the payload's length, the checksum correct, CR LF at the end. */
  function ParseFrame(f: seq<byte>): Option<Message>
  {
    if |f| < |PREFIX| || f[..|PREFIX|] != PREFIX then None
    else match CutAt(f[|PREFIX|..], COMMA)
      case None => None
      case Some((pgnText, rest)) =>
        match CutAt(rest, COMMA)
        case None => None
        case Some((lenText, rest')) =>
          match CutAt(rest', STAR)
          case None => None
          case Some((hex, tail)) => ParseFields(pgnText, lenText, hex, tail)
  }

  /** Decimal digits are neither ',' nor '*'. */
  lemma DecimalIsPlain(n: nat)
    ensures COMMA !in Decimal(n) && STAR !in Decimal(n)
  {
    var t := Decimal(n);
    assert forall i :: 0 <= i < |t| ==> IsDecimalDigit(t[i]);
  }

  /** Hexadecimal text holds no '*'. */
  lemma HexDataIsPlain(d: seq<byte>)
    ensures STAR !in HexData(d)
  {
    var h := HexData(d);
    forall i | 0 <= i < |h|
      ensures h[i] != STAR
    {
      HexDigitIsPlain(h[i]);
    }
  }

  /** The frame as the parser sees it: prefix, then three separated fields
      and the tail. */
  lemma FrameShape(m: Message)
    ensures Frame(m) == PREFIX + (Decimal(m.pgn) + [COMMA] + (Decimal(|m.data|) + [COMMA] +
      (HexData(m.data) + [STAR] + (Hex2(FrameChecksum(m)) + [CR, LF]))))
  {
    Regroup(PREFIX, Decimal(m.pgn), Decimal(|m.data|), HexData(m.data), Hex2(FrameChecksum(m)) + [CR, LF]);
  }

  lemma Regroup(a: seq<byte>, b: seq<byte>, c: seq<byte>, d: seq<byte>, e: seq<byte>)
    ensures a + b + [COMMA] + c + [COMMA] + d + [STAR] + e ==
            a + (b + [COMMA] + (c + [COMMA] + (d + [STAR] + e)))
  {
  }

  /** Parsing a formatted frame returns the message. */
  lemma ParseFormatted(m: Message)
    ensures ParseFrame(Frame(m)) == Some(m)
  {
    var tail := Hex2(FrameChecksum(m)) + [CR, LF];
    var rest' := HexData(m.data) + [STAR] + tail;
    var rest := Decimal(|m.data|) + [COMMA] + rest';
    var body := Decimal(m.pgn) + [COMMA] + rest;
    FrameShape(m);
    assert Frame(m)[..|PREFIX|] == PREFIX && Frame(m)[|PREFIX|..] == body;
    DecimalIsPlain(m.pgn);
    DecimalIsPlain(|m.data|);
    HexDataIsPlain(m.data);
    CutAtJoin(Decimal(m.pgn), COMMA, rest);
    CutAtJoin(Decimal(|m.data|), COMMA, rest');
    CutAtJoin(HexData(m.data), STAR, tail);
    ParseDecimalOfDecimal(m.pgn);
    ParseDecimalOfDecimal(|m.data|);
    HexRoundTrip(m.data);
  }

  /** Fields that parse are the fields Frame writes for their message. */
  lemma ParsedFields(pgnText: seq<byte>, lenText: seq<byte>, hex: seq<byte>, tail: seq<byte>)
    requires ParseFields(pgnText, lenText, hex, tail).Some?
    ensures var m := ParseFields(pgnText, lenText, hex, tail).value;
            pgnText == Decimal(m.pgn) && lenText == Decimal(|m.data|) &&
            hex == HexData(m.data) && tail == Hex2(FrameChecksum(m)) + [CR, LF]
  {
    HexDecodeCanonical(hex);
  }

  /** Whatever parses is the frame of the message it parses to. */
  lemma ParsedIsFormatted(f: seq<byte>)
    requires ParseFrame(f).Some?
    ensures Frame(ParseFrame(f).value) == f
  {
    var m := ParseFrame(f).value;
    var body := f[|PREFIX|..];
    var (pgnText, rest) := CutAt(body, COMMA).value;
    var (lenText, rest') := CutAt(rest, COMMA).value;
    var (hex, tail) := CutAt(rest', STAR).value;
    CutAtSplits(body, COMMA);
    CutAtSplits(rest, COMMA);
    CutAtSplits(rest', STAR);
    ParsedFields(pgnText, lenText, hex, tail);
    FrameShape(m);
    assert f == f[..|PREFIX|] + body;
  }

  /** A byte string is a frame of m exactly when it parses to m. */
  lemma ParseFrameIff(f: seq<byte>, m: Message)
    ensures ParseFrame(f) == Some(m) <==> f == Frame(m)
  {
    if f == Frame(m) {
      ParseFormatted(m);
    }
    if ParseFrame(f) == Some(m) {
      ParsedIsFormatted(f);
    }
  }

  /** tcp2000_test.go, "Speed message": PGN 128259 with payload 01 02 03
      gives `$PNMEA2K,128259,3,010203*HH\r\n`. */
  lemma SpeedMessageVector()
    ensures Frame(Message(128259, [0x01, 0x02, 0x03])) ==
      PREFIX + [49, 50, 56, 50, 53, 57] + [COMMA, 51, COMMA] + [48, 49, 48, 50, 48, 51] +
      [STAR] + Hex2(FrameChecksum(Message(128259, [0x01, 0x02, 0x03]))) + [CR, LF]
  {
  }

  /** tcp2000_test.go, "Depth message": PGN 128267 with payload FF gives
      `$PNMEA2K,128267,1,FF*HH\r\n`. */
  lemma DepthMessageVector()
    ensures Frame(Message(128267, [0xFF])) ==
      PREFIX + [49, 50, 56, 50, 54, 55] + [COMMA, 49, COMMA] + [70, 70] +
      [STAR] + Hex2(FrameChecksum(Message(128267, [0xFF]))) + [CR, LF]
  {
  }
}
