# nmea-simulator in Dafny

A verified model of the core of `nmea-simulator`. The simulator generates
marine navigation data and serves it to clients. It has two halves.

- **NMEA 0183.** Text sentences such as `$GPGGA,...*7A`. A TCP server and a
  WebSocket server each generate a batch of sentences on every tick and
  broadcast it to their registered clients. The TCP server caps each tick's
  output at what the configured baud rate could carry in one interval.
- **NMEA 2000.** Binary messages, each a PGN (parameter group number) and an
  8-byte payload. A simulator encodes five fixed readings each tick. It
  hands the messages to a TCP server, which writes each one as the text
  frame `$PNMEA2K,<pgn>,<len>,<HEX>*<HH>\r\n`, and to a WebSocket server.

The model covers:

- the sentence checksum (`AppendChecksum`, and the older `calculateChecksum`);
- the PGN payload layouts, with a decoder and round trips both ways;
- the `$PNMEA2K` frame, with a parser that accepts exactly the frames the
  formatter writes;
- the four servers as classes. Each has a client registry, a log of every
  write, and the set of connections it has closed;
- the simulator, whose sinks are recorded calls;
- the command line: flag defaults, baud-rate validation, which servers start,
  and shutdown.

Modules, one per file, following the source's packages:

| file | module | source |
|---|---|---|
| bytes.dfy | Bytes | bytes, XOR, `%02X`, `%X`, `%d` |
| util.dfy | NmeaUtil | pkg/nmea0183/util/util.go |
| checksum.dfy | Nmea0183Checksum | nmea0183/checksum.go |
| pgn_types.dfy | PgnTypes | pkg/nmea2000/pgn/types.go |
| pgn_encoder.dfy | PgnEncoder | pkg/nmea2000/pgn/encoder.go |
| frame.dfy | PgnFrame | formatPGNMessage in pkg/network/tcp2000.go |
| network.dfy | Network | pkg/network/server.go |
| sentences.dfy | Sentences | generateSentences in tcp.go and websocket.go |
| registry.dfy | Registry | the write order shared by the broadcasts |
| tcp.dfy | NetworkTcp | pkg/network/tcp.go |
| tcp2000.dfy | NetworkTcp2000 | pkg/network/tcp2000.go |
| websocket.dfy | NetworkWebSocket | pkg/network/websocket.go |
| websocket2000.dfy | NetworkWebSocket2000 | pkg/network/websocket2000.go |
| simulator.dfy | Nmea2000Simulator | pkg/nmea2000/simulator.go |
| cli.dfy | Cli | cmd/nmeasim/main.go |

Modelling choices:

- **Bytes and XOR.** A byte is an `int` in 0..255. XOR is defined digit by
  digit on naturals and proved associative, commutative and self-cancelling.
  `XorAll` is the left-to-right accumulator that both checksum loops run.
- **Map order.** Go visits a map in unspecified order. Each broadcast picks
  any client not yet visited, with `:|`, and returns the ghost `order` it
  used. Its contract holds for every enumeration of the registry
  (`Enumerates(order, old(clients))`).
- **Write failures.** Whether a write fails is an input to the model. A
  broadcast takes `fails(conn, k)` for the k-th sentence to a connection. A
  single-frame send takes `fails(conn)`.
- **The write log.** What a broadcast writes is stated through the
  specification functions in `Registry`:
  - `Run` is one client's sentences, ending at its first failed write;
  - `Unbudgeted` is the runs of all clients, in visiting order;
  - `Cut` is the TCP byte budget, which stops starting writes once the
    running total reaches the budget;
  - `Fanout` is one frame to every client.

  The lemmas about them state what each client receives.
- **Blocking calls.** A `Start` that blocks, in `ListenAndServe` or in a wait
  on the context, returns `Serving`. Ports that are free and listens that
  succeed are boolean inputs.
- **Parameters and recorded calls.** Random draws and the text the sentence
  generators produce are parameters. The calls the simulator makes on its
  sinks are recorded as a sequence of `Call`s.

## Model

| member | source | states |
|---|---|---|
| Bytes.XorAllAppend | pkg/nmea0183/util/util.go:40-42 | the running XOR over a concatenation is the XOR of the two halves' running XORs, so a checksum may be accumulated in stages |
| Bytes.XorAllRepeat | pkg/nmea0183/util/util.go:40-42 | n copies of one byte XOR to 0 when n is even and to the byte when n is odd |
| Bytes.Hex2 | pkg/nmea0183/util/util.go:45 | `%02X` gives two upper-case hexadecimal digits whose value is the byte |
| Bytes.HexData | pkg/network/tcp2000.go:126 | `%X` of a payload is two upper-case hexadecimal digits per byte |
| Bytes.HexRoundTrip | pkg/network/tcp2000.go:126 | decoding the `%X` text of a payload gives back the payload |
| Bytes.HexDecodeCanonical | pkg/network/tcp2000.go:126 | any hexadecimal text that decodes is the `%X` text of what it decodes to |
| Bytes.Decimal | pkg/network/tcp2000.go:116 | `%d` of a natural is a non-empty run of decimal digits with no leading zero |
| Bytes.DecimalRoundTrip | pkg/network/tcp2000.go:116 | reading the `%d` text back gives the number |
| NmeaUtil.RandomInt | pkg/nmea0183/util/util.go:20-23 | the result lies in min..max inclusive for every draw in 0..max-min |
| NmeaUtil.StartFromMeaning | pkg/nmea0183/util/util.go:31-37 | the scan stops just after the first '$' from k on, or at the end when there is none |
| NmeaUtil.EndFromMeaning | pkg/nmea0183/util/util.go:39-42 | the scan stops at the first '*' from k on, or at the end |
| NmeaUtil.AppendChecksum | pkg/nmea0183/util/util.go:27-46 | the result is the sentence unchanged, then '*', then `%02X` of the checksum |
| NmeaUtil.ChecksumOfBody | pkg/nmea0183/util/util.go:25-42 | the checksum is the XOR of exactly the bytes after the first '$' and before the next '*' or the end |
| NmeaUtil.NoDollarChecksumIsZero | pkg/nmea0183/util/util.go:31-37 | a sentence without '$' has checksum 0 and gets `*00` |
| NmeaUtil.ReapplyGivesSameDigits | pkg/nmea0183/util/util.go:40-45 | the checksum of a checksummed sentence is the original checksum, because the XOR stops at the '*' |
| NmeaUtil.FirstDollarSplit | pkg/nmea0183/util/util.go:31-37 | when d is the position of the first '$', the body starts at d+1 |
| NmeaUtil.BodyUpTo | pkg/nmea0183/util/util.go:39-42 | the checksum is the XOR of the slice between the first '$' and the terminating '*' or the end |
| NmeaUtil.GpggaXor | pkg/nmea0183/util/util_test.go:61-64 | the talker and type `GPGGA` XOR to 0x56 |
| NmeaUtil.EmptyFieldsVector | pkg/nmea0183/util/util_test.go:61-64 | `$GPGGA,,,,,,,,,,,,,,,` has checksum 0x7A, written `7A` |
| Nmea0183Checksum.CalculateChecksum | nmea0183/checksum.go:6-12 | the loop's result is `%02X` of the XOR of every byte after the first, '*' included |
| Nmea0183Checksum.ShortSentenceGivesZeroDigits | nmea0183/checksum.go:8-11 | a sentence of at most one byte gives `00` |
| Nmea0183Checksum.FirstByteIgnored | nmea0183/checksum.go:8-10 | whatever the first byte is, the result is the XOR of the rest |
| Nmea0183Checksum.AgreesWithAppendChecksum | nmea0183/checksum.go:6-12 | on a sentence that starts with '$' and holds no '*', this checksum equals AppendChecksum's |
| Nmea0183Checksum.StarIsIncluded | nmea0183/checksum.go:8-10 | unlike AppendChecksum, this checksum does not stop at '*': `$*` gives 0x2A here and 0 there |
| Nmea0183Checksum.SplitWithoutSeparator | nmea0183/gga_test.go:22 | `strings.Split` on a string without the separator gives that string alone |
| Nmea0183Checksum.SplitAtFirst | nmea0183/gga_test.go:22 | splitting `a + sep + b`, when a has no separator, gives a and then the split of b |
| Nmea0183Checksum.GeneratedSentencePasses | nmea0183/gga_test.go:21-33 | a star-free sentence written with its checksum splits into two parts, and the test's recomputed checksum matches the suffix |
| PgnTypes.CommonPgnsKeys | pkg/nmea2000/pgn/types.go:16-54 | the table holds exactly the six PGNs 127250, 128259, 128267, 129025, 129026, 130306 |
| PgnTypes.CommonPgnsWellFormed | pkg/nmea2000/pgn/types.go:16-54 | each entry is keyed by its own PGN and has length 8 |
| PgnEncoder.U16Bits | pkg/nmea2000/pgn/encoder.go:25-26 | the uint16 conversion of an int16 reads back as the same int16 (two's complement) |
| PgnEncoder.BitsOnto | pkg/nmea2000/pgn/encoder.go:24-30 | the two's-complement conversions are onto: every uint16 and uint32 is the image of a signed value |
| PgnEncoder.Le16 | pkg/nmea2000/pgn/encoder.go:22 | PutUint16's two bytes read back little-endian as the value |
| PgnEncoder.Le32 | pkg/nmea2000/pgn/encoder.go:52 | PutUint32's four bytes read back little-endian as the value |
| PgnEncoder.Le16OfRead | pkg/nmea2000/pgn/encoder.go:22 | writing the value read from two bytes gives back the same bytes |
| PgnEncoder.Le32OfRead | pkg/nmea2000/pgn/encoder.go:52 | writing the value read from four bytes gives back the same bytes |
| PgnEncoder.PutUint16 | pkg/nmea2000/pgn/encoder.go:22 | the two bytes at off become the little-endian value and every other byte is unchanged |
| PgnEncoder.PutUint32 | pkg/nmea2000/pgn/encoder.go:52 | the four bytes at off become the little-endian value and every other byte is unchanged |
| PgnEncoder.HeadingLayout | pkg/nmea2000/pgn/encoder.go:17-37 | 8 bytes: heading at 0-1, deviation at 2-3 and variation at 4-5 in two's complement, reference at 6, reserved at 7 |
| PgnEncoder.HeadingRoundTrip | pkg/nmea2000/pgn/encoder.go:17-37 | decoding an encoded heading gives it back |
| PgnEncoder.HeadingLayoutOnto | pkg/nmea2000/pgn/encoder.go:17-37 | every 8-byte payload is the encoding of the heading it decodes to |
| PgnEncoder.EncodeVesselHeading | pkg/nmea2000/pgn/encoder.go:17-37 | the array filled in place holds exactly the heading layout |
| PgnEncoder.DepthLayout | pkg/nmea2000/pgn/encoder.go:47-63 | 8 bytes: depth at 0-3, offset at 4-5 in two's complement, maximum range at 6-7 |
| PgnEncoder.DepthRoundTrip | pkg/nmea2000/pgn/encoder.go:47-63 | decoding an encoded depth gives it back |
| PgnEncoder.DepthLayoutOnto | pkg/nmea2000/pgn/encoder.go:47-63 | every 8-byte payload is the encoding of the depth it decodes to |
| PgnEncoder.EncodeWaterDepth | pkg/nmea2000/pgn/encoder.go:47-63 | the array filled in place holds exactly the depth layout |
| PgnEncoder.DepthVector | pkg/nmea2000/pgn/encoder_test.go:88-100 | 10.5 m, offset -1.5 m, range 100 m (1050, -150, 10000 after scaling) encode to 1A 04 00 00 6A FF 10 27 |
| PgnEncoder.WindLayout | pkg/nmea2000/pgn/encoder.go:73-93 | 8 bytes: speed at 0-1, angle at 2-3, reference at 4, then FF FF FF |
| PgnEncoder.WindRoundTrip | pkg/nmea2000/pgn/encoder.go:73-93 | decoding an encoded wind reading gives it back |
| PgnEncoder.WindLayoutOnto | pkg/nmea2000/pgn/encoder.go:73-93 | an 8-byte payload is an encoding exactly when its last three bytes are FF |
| PgnEncoder.EncodeWindData | pkg/nmea2000/pgn/encoder.go:73-93 | the array filled in place holds exactly the wind layout |
| PgnEncoder.WindVector | pkg/nmea2000/pgn/encoder_test.go:140-155 | 5.5 m/s at 2.0 rad, apparent (550, 20000, 1 after scaling) encode to 26 02 20 4E 01 FF FF FF |
| PgnEncoder.PositionLayout | pkg/nmea2000/pgn/encoder.go:102-114 | 8 bytes: latitude at 0-3 and longitude at 4-7, both two's complement |
| PgnEncoder.PositionRoundTrip | pkg/nmea2000/pgn/encoder.go:102-114 | decoding an encoded position gives it back |
| PgnEncoder.PositionLayoutOnto | pkg/nmea2000/pgn/encoder.go:102-114 | every 8-byte payload is the encoding of the position it decodes to |
| PgnEncoder.EncodePosition | pkg/nmea2000/pgn/encoder.go:102-114 | the array filled in place holds exactly the position layout |
| PgnEncoder.SpeedLayout | pkg/nmea2000/pgn/encoder.go:124-144 | 8 bytes: water speed at 0-1, ground speed at 2-3, reference at 4, then FF FF FF |
| PgnEncoder.SpeedRoundTrip | pkg/nmea2000/pgn/encoder.go:124-144 | decoding an encoded speed gives it back |
| PgnEncoder.SpeedLayoutOnto | pkg/nmea2000/pgn/encoder.go:124-144 | an 8-byte payload is an encoding exactly when its last three bytes are FF |
| PgnEncoder.EncodeSpeedData | pkg/nmea2000/pgn/encoder.go:124-144 | the array filled in place holds exactly the speed layout |
| PgnFrame.FrameChecksumByStages | pkg/network/tcp2000.go:118-124 | the frame checksum is the header's XOR (after '$') combined with the payload's XOR |
| PgnFrame.FormatPgnMessage | pkg/network/tcp2000.go:114-127 | the two checksum loops and the final format produce exactly Frame(msg) |
| PgnFrame.IndexOf | pkg/network/tcp2000.go:114-127 | the result is the first position of the byte, or None when it is absent |
| PgnFrame.CutAtJoin | pkg/network/tcp2000.go:114-127 | cutting `a + sep + b`, when a has no separator, gives back a and b |
| PgnFrame.ParseDecimal | pkg/network/tcp2000.go:116 | a field accepted as a number is the `%d` text of that number |
| PgnFrame.ParseFormatted | pkg/network/tcp2000.go:114-127 | parsing a formatted frame gives back the message |
| PgnFrame.ParsedIsFormatted | pkg/network/tcp2000.go:114-127 | whatever parses is exactly the frame of the message it parses to |
| PgnFrame.ParseFrameIff | pkg/network/tcp2000.go:114-127 | a byte string parses to m exactly when it is the frame of m |
| PgnFrame.SpeedMessageVector | pkg/network/tcp2000_test.go:225-233 | PGN 128259 with payload 01 02 03 frames as `$PNMEA2K,128259,3,010203*` + checksum + CR LF |
| PgnFrame.DepthMessageVector | pkg/network/tcp2000_test.go:234-242 | PGN 128267 with payload FF frames as `$PNMEA2K,128267,1,FF*` + checksum + CR LF |
| Network.BaseServer.constructor | pkg/network/server.go:44-57 | a new base server holds its configuration and an open Done signal |
| Network.BaseServer.CloseDone | pkg/network/server.go:44-57 | Done, once open, is closed |
| Sentences.Render | pkg/network/tcp.go:129-159 | one text per planned sentence type, in plan order, each what that type's generator returned |
| Sentences.GenerateSentences | pkg/network/tcp.go:129-159 | the batch is the enabled groups' sentences in order: position, navigation, environment |
| Sentences.PlanSize | pkg/network/websocket.go:209-239 | a tick has 2 position, 4 navigation and 5 environment sentences, for the groups enabled |
| Sentences.PlanMembership | pkg/network/websocket.go:209-239 | a sentence type is generated exactly when its group is enabled, and at most once per tick |
| Sentences.FullPlan | pkg/network/tcp.go:129-159 | with every group enabled the order is GGA, GLL, RMC, HDT, VTG, XTE, DBT, MTW, MWV, VHW, DPT |
| Registry.Enumerate | pkg/network/tcp.go:106 | every finite registry has an enumeration without repeats |
| Registry.RunMeaning | pkg/network/tcp.go:107-125 | a client is written sentences k, k+1, ... in order, each once, and it stops short of the end only at a failed write |
| Registry.RunAllSucceed | pkg/network/websocket.go:246-256 | a client none of whose writes fails is written every sentence |
| Registry.CutIsPrefix | pkg/network/tcp.go:108-113 | the budgeted writes are a prefix of the unbudgeted ones |
| Registry.CutUnderBudget | pkg/network/tcp.go:108-113 | every write started while the running total was below the budget |
| Registry.CutStopsAtBudget | pkg/network/tcp.go:108-113 | when writes were left out, the total had reached the budget |
| Registry.CutOvershoot | pkg/network/tcp.go:108-113 | the total overshoots the budget by less than the longest single write |
| Registry.NoBudgetNoWrites | pkg/network/tcp.go:108-113 | once the total is at the budget nothing more is written |
| Registry.ProjectUnbudgeted | pkg/network/tcp.go:106-126 | without a budget each visited client receives exactly its own run, and any other connection nothing |
| Registry.ClientGetsPrefixOfRun | pkg/network/tcp.go:101-127 | under the budget each client receives a prefix of its run, and an unvisited connection receives nothing |
| Registry.FailedAreVisited | pkg/network/tcp.go:115-123 | only visited clients can be dropped for a failed write |
| Registry.ProjectFanout | pkg/network/tcp2000.go:68-73 | one frame reaches each visited connection exactly once |
| Registry.CutAppend | pkg/network/tcp.go:105-126 | the budget applied to two batches of writes in a row is the budget on the first, then on the second from the first's total |
| NetworkTcp.BytesPerInterval | pkg/network/tcp.go:86 | baud × interval ÷ (8 × 10⁹), truncated toward zero as Go's conversion to int does |
| NetworkTcp.DefaultBudget | pkg/network/tcp.go:86 | at 4800 baud and a one-second interval the budget is 600 bytes |
| NetworkTcp.TcpServer.constructor | pkg/network/tcp.go:23-28 | a new server has no listener, no clients, no writes and an open Done |
| NetworkTcp.TcpServer.Start | pkg/network/tcp.go:31-46 | a failed listen returns the error; otherwise the call serves until the context ends |
| NetworkTcp.TcpServer.Accept | pkg/network/tcp.go:48-79 | runs only once a listen has succeeded (the loop is launched at tcp.go:41); an accepted connection joins the registry unless the context or Done has ended the loop |
| NetworkTcp.TcpServer.Broadcast | pkg/network/tcp.go:101-127 | the writes are the budgeted runs in visiting order, and exactly the clients with a failed write are closed and dropped |
| NetworkTcp.TcpServer.WriteRun | pkg/network/tcp.go:107-125 | one client's writes are its run under the budget from the current total; a failure closes and drops it |
| NetworkTcp.TcpServer.Tick | pkg/network/tcp.go:81-99 | each tick broadcasts the planned batch under the baud budget; after the context or Done ends, nothing changes |
| NetworkTcp.TcpServer.Stop | pkg/network/tcp.go:162-187 | a second Stop returns nil and changes nothing; the first closes Done and every client and returns the listener's close error |
| NetworkTcp2000.Tcp2000Server.constructor | pkg/network/tcp2000.go:19-24 | a new server has no listener, no clients, no writes and an open Done |
| NetworkTcp2000.Tcp2000Server.Start | pkg/network/tcp2000.go:27-42 | Start returns at once: nil when the listen succeeds, the error otherwise |
| NetworkTcp2000.Tcp2000Server.Accept | pkg/network/tcp2000.go:89-110 | runs only once a listen has succeeded (the loop is launched at tcp2000.go:35); an accepted connection joins the registry unless the context or Done has ended the loop |
| NetworkTcp2000.Tcp2000Server.SendPGN | pkg/network/tcp2000.go:62-87 | every client is sent the frame once; those whose write failed are closed and dropped afterwards, so a client stays exactly when its write succeeded; the result is nil |
| NetworkTcp2000.Tcp2000Server.Stop | pkg/network/tcp2000.go:45-59 | Done is closed, every client is closed and dropped, and the listener is closed; the result is nil |
| NetworkTcp2000.SendReachesEach | pkg/network/tcp2000.go:62-87 | each registered client receives the frame exactly once, and the frame parses back to the message |
| NetworkWebSocket.WebSocketServer.constructor | pkg/network/websocket.go:31-41 | a new server is not serving and has no clients, no writes and an open Done |
| NetworkWebSocket.WebSocketServer.Start | pkg/network/websocket.go:65-126 | the call serves until the context ends when the port is free, and fails otherwise |
| NetworkWebSocket.WebSocketServer.ContextDone | pkg/network/websocket.go:115-120 | the end of the context shuts the HTTP server down and leaves the registry as it is |
| NetworkWebSocket.WebSocketServer.Register | pkg/network/websocket.go:129-139 | an upgraded connection joins the registry; a failed upgrade changes nothing |
| NetworkWebSocket.WebSocketServer.Disconnect | pkg/network/websocket.go:147-165 | a connection whose read fails is closed and removed |
| NetworkWebSocket.WebSocketServer.Broadcast | pkg/network/websocket.go:241-258 | the sends are every client's run in visiting order, and exactly the clients with a failed send are closed and removed |
| NetworkWebSocket.WebSocketServer.SendAll | pkg/network/websocket.go:246-256 | one client's sends are its run, and a failure closes and removes it |
| NetworkWebSocket.WebSocketServer.Tick | pkg/network/websocket.go:191-207 | each tick broadcasts the planned batch; after the context or Done ends, nothing changes |
| NetworkWebSocket.WebSocketServer.Stop | pkg/network/websocket.go:178-189 | every client is closed and removed, then Done is closed; the result is nil |
| NetworkWebSocket.ConnectionCount | pkg/network/websocket_test.go:221-241 | three registered clients, one disconnects, two remain |
| NetworkWebSocket.ClientReceives | pkg/network/websocket.go:241-258 | a client receives the batch's sentences in order, unchanged, up to its first failed send, and all of them when none fails |
| NetworkWebSocket2000.WebSocket2000Server.constructor | pkg/network/websocket2000.go:26-36 | a new server is not serving and has no clients, no writes and an open Done |
| NetworkWebSocket2000.WebSocket2000Server.Start | pkg/network/websocket2000.go:39-97 | the call serves until the context ends when the port is free, and fails otherwise |
| NetworkWebSocket2000.WebSocket2000Server.ContextDone | pkg/network/websocket2000.go:89-94 | the end of the context shuts the HTTP server down and leaves the registry as it is |
| NetworkWebSocket2000.WebSocket2000Server.Register | pkg/network/websocket2000.go:133-142 | an upgraded connection joins the registry; a failed upgrade changes nothing |
| NetworkWebSocket2000.WebSocket2000Server.Disconnect | pkg/network/websocket2000.go:151-171 | a connection whose read fails is closed and removed |
| NetworkWebSocket2000.WebSocket2000Server.SendPGN | pkg/network/websocket2000.go:112-131 | every client is sent the frame once, and a client whose send failed is closed and removed at once, so a client stays exactly when its send succeeded; the result is nil |
| NetworkWebSocket2000.WebSocket2000Server.Stop | pkg/network/websocket2000.go:100-109 | Done is closed and every client is closed and removed; the result is nil |
| NetworkWebSocket2000.ConnectionCount | pkg/network/websocket2000_test.go:147-167 | three registered clients, one disconnects, two remain |
| NetworkWebSocket2000.SendReachesEach | pkg/network/websocket2000.go:112-131 | each registered client receives the frame exactly once, and the clients kept are exactly those sent the frame whose send did not fail |
| Nmea2000Simulator.Simulator.constructor | pkg/nmea2000/simulator.go:28-35 | a new simulator holds its sinks and period, has an open Done and makes no calls |
| Nmea2000Simulator.Simulator.Start | pkg/nmea2000/simulator.go:38-51 | the transport is started, then the WebSocket sink if present; the first failure is returned and the loop runs only when both succeed |
| Nmea2000Simulator.Simulator.StartDetached | pkg/nmea2000/simulator.go:38-51 | the corrected Start: the transport is started and awaited, the WebSocket sink is launched without waiting for its answer, and the loop runs exactly when the transport started |
| Nmea2000Simulator.Simulator.Stop | pkg/nmea2000/simulator.go:54-63 | Done is closed and the transport stopped; its error returns at once, otherwise the WebSocket sink is stopped and its result returned |
| Nmea2000Simulator.Simulator.Publish | pkg/nmea2000/simulator.go:91-94 | a message goes to the transport and then, if present, to the WebSocket sink |
| Nmea2000Simulator.Simulator.GenerateAndSendMessages | pkg/nmea2000/simulator.go:81-154 | the five messages of the batch are each delivered to the transport and then to the WebSocket sink |
| Nmea2000Simulator.Simulator.Tick | pkg/nmea2000/simulator.go:65-79 | a tick of a running loop sends the batch; a cancelled context or closed Done sends nothing |
| Nmea2000Simulator.BatchShape | pkg/nmea2000/simulator.go:81-154 | the batch is heading, speed, depth, position and wind, each a known PGN with an 8-byte payload matching its table length |
| Nmea2000Simulator.DeliveriesPerSink | pkg/nmea2000/simulator_test.go:60-120 | the transport receives every message in order, and the WebSocket sink the same messages when present and nothing otherwise |
| Nmea2000Simulator.DeliveriesOrder | pkg/nmea2000/simulator.go:81-154 | with a WebSocket sink each message goes to the transport and then at once to the sink |
| Nmea2000Simulator.DeliveriesAppend | pkg/nmea2000/simulator.go:81-154 | delivering two message lists in a row is delivering their concatenation |
| Nmea2000Simulator.MockRun | pkg/nmea2000/simulator_test.go:60-120 | with two succeeding sinks, start, two ticks and stop make exactly the expected calls |
| Cli.NormalizeBaud | cmd/nmeasim/main.go:35-39 | the rate is always a valid one, is kept exactly when valid, and an invalid one becomes 4800 |
| Cli.NormalizeBaudIdempotent | cmd/nmeasim/main.go:35-39 | normalising twice is normalising once |
| Cli.ProtocolCases | cmd/nmeasim/main.go:56-150 | both halves run exactly for "both", only NMEA 0183 for "nmea0183", only NMEA 2000 for "nmea2000" |
| Cli.Configure | cmd/nmeasim/main.go:55-150 | the NMEA 0183 WebSocket and TCP configurations differ only in port and carry the validated baud; the NMEA 2000 pair exists exactly for its protocols; any other protocol exits with code 1 |
| Cli.DefaultWiring | cmd/nmeasim/main.go:19-32 | with no flags: ports 8080, 10110, 10200 and 8081, 4800 baud, a one-second interval, both protocols |
| Cli.StartNmea2000AsWritten | cmd/nmeasim/main.go:128-139 | as written, the simulation loop never runs: main blocks for ever or exits with code 1 |
| Cli.StartNmea2000 | cmd/nmeasim/main.go:121-139 | with the WebSocket server started once, the loop runs exactly when the TCP listen succeeds, otherwise main exits with code 1 |
| Cli.StartNmea2000Witness | cmd/nmeasim/main.go:128-139 | with every port free, the as-written start blocks without a loop while the corrected one runs the loop |
| Cli.StartNmea0183 | cmd/nmeasim/main.go:84-91 | both NMEA 0183 servers are started, each independently of the other's result: the WebSocket server serves exactly when it already did or its port was free, the TCP server listens exactly when it already did or its listen succeeded, and neither server's clients, write log or closed set change |
| Cli.Shutdown | cmd/nmeasim/main.go:156-164 | the NMEA 0183 WebSocket server ends with Done closed and every client closed and removed; the TCP server ends with Done closed and, unless it was already stopped, its clients closed and dropped and its listener closed; the simulator ends with done closed, having stopped the transport and then, when that succeeded, the WebSocket sink; no write log changes; the order, WebSocket then TCP then simulator, is recorded in `log` as each Stop returns |

## Left out

- Floating point. The encoders scale each float reading and convert it
  inline, for example `uint16(h.Heading * 10000)` (encoder.go:21),
  `int16(d.Offset * 100)` (encoder.go:55) and `int32(p.Latitude * 1e7)`
  (encoder.go:106). The model starts from the scaled integers and does not
  model the multiplication, the truncation, or the result of converting an
  out-of-range float.
- `RandomFloat` and `FormatUTCTime` (util.go) are left out. They draw from the
  random source and read the clock.
- The sentence generators (position, navigation and environment packages, and
  nmea0183/gga.go) are not modelled. Their text is a parameter of each tick.
- Concurrency is not modelled: goroutines, mutexes, tickers and `select`.
  Each operation is one atomic step. The goroutine that watches the context
  in acceptLoop is the `ctxDone` input.
- Logging, the HTTP mux, static files, the logging middleware and the
  `fs.Sub` error path are not modelled. They do not change what is sent.
- The `Resolution`, `Min` and `Max` fields of `PGNDefinition` are zero in
  every table entry, so they are left out of the datatype.
- The `Server` and `NMEA2000Server` interfaces are not modelled as such. The
  simulator's sinks are behaviours recorded as calls, which is how the
  simulator's own tests drive it. `Cli` wires the real server classes.
- NetworkTcp.BytesPerInterval: the source computes it in `float64`. The model
  uses exact integer arithmetic with the same truncation. The two can differ
  only where the float product rounds across an integer.
- Aliasing between servers is not modelled. Each server owns only
  its own fields.
- Other `AppendChecksum` vectors are not stated as lemmas. These are the
  "GGA example" and "Simple sentence" vectors in util_test.go. Evaluating a
  digit-wise XOR over 40–70 literal bytes is too costly for the verifier.
  NmeaUtil.ChecksumOfBody states the rule they test, and
  NmeaUtil.EmptyFieldsVector gives one concrete instance.
- Flag parsing (`flag.Parse`) is not modelled. The model starts from the
  parsed values.
- The signal channel is not modelled. Shutdown is the step after the
  interrupt.
- `os.Exit` is not modelled as a process exit. It is the `exitCode` of the
  wiring.
- NmeaUtil.RandomInt requires a draw in 0..max-min, so it does not model
  the case max < min. There `rand.Intn` receives a non-positive argument and
  panics (util.go:22), as it does when `max-min+1` overflows `int`.
- Cli.Shutdown: the servers share no state, so their final states cannot
  show in which order they were stopped. The order is recorded in `log`,
  which the method appends to as each Stop returns.
- The ticker panic is not modelled. `time.NewTicker` panics for a
  non-positive period (tcp.go:82, websocket.go:193, simulator.go:66), so
  `-interval 0` or a negative interval crashes the program at the first
  server start. Cli.Configure passes any interval through, and
  NetworkTcp.TcpServer.Tick, NetworkWebSocket.WebSocketServer.Tick and
  Nmea2000Simulator.Simulator.Tick describe a tick for any interval.

Behaviour of the code that the model keeps:

- pkg/network/tcp.go:108-113 checks the budget before each write, not
  after it. One tick can therefore exceed the budget by less than one
  framed sentence (Registry.CutOvershoot).
- Only the NMEA 0183 TCP server's `Stop` (pkg/network/tcp.go:166-171)
  guards against a second call. The other `Stop`s close `Done`
  unconditionally (pkg/network/tcp2000.go:49,
  pkg/network/websocket.go:187, pkg/network/websocket2000.go:101,
  pkg/nmea2000/simulator.go:55), and a second call would panic. Their model
  therefore requires an open `Done`.
- The simulator's `Stop` returns at once when stopping the transport fails
  (pkg/nmea2000/simulator.go:56-58). The WebSocket sink is then not
  stopped.
- The WebSocket servers' `Stop` does not close the HTTP server
  (pkg/network/websocket.go:178-189, pkg/network/websocket2000.go:100-109).
  Only the end of the context does (pkg/network/websocket.go:116-120,
  pkg/network/websocket2000.go:90-94).

## Findings

| source | as written | input that shows it | evidently intended | confidence | as-written member | corrected member |
|---|---|---|---|---|---|---|
| cmd/nmeasim/main.go:129-139 with pkg/nmea2000/simulator.go:43-47 | main starts the NMEA 2000 WebSocket server in a goroutine. `Simulator.Start` starts the same server again, synchronously, so that port is bound twice and `ListenAndServe` is entered twice. If the simulator's call binds the port first, it never returns and main blocks, with Ctrl-C already captured by `signal.Notify`. Otherwise it fails and main exits with code 1. Either way the simulation loop never starts. | protocol `nmea2000` or `both`, with every port free | the WebSocket server starts once, in the background, and the simulation loop runs whenever the TCP listen succeeds | not executed | Cli.StartNmea2000AsWritten | Cli.StartNmea2000 (using Nmea2000Simulator.Simulator.StartDetached) |
