/** cmd/nmeasim/main.go: the command line. It normalises the baud rate,
    derives the server configurations the protocol flag asks for, starts
    them, and on an interrupt stops the NMEA 0183 servers and then the NMEA
    2000 simulator. Flag parsing, the logger and the signal channel are not
    modelled; the flags arrive as a value. */
module Cli {
  import opened Bytes
  import opened Network
  import NetworkTcp
  import NetworkWebSocket
  import NetworkTcp2000
  import NetworkWebSocket2000
  import Nmea2000Simulator

  /** The command-line flags, after parsing. */
  datatype Flags = Flags(
    protocol: string,
    nmea0183WsPort: int,
    nmea0183TcpPort: int,
    baud: int,
    nmea2000WsPort: int,
    nmea2000TcpPort: int,
    host: string,
    interval: int)

  const SECOND: int := 1_000_000_000

  /** The flag defaults. */
  const DEFAULT_FLAGS := Flags("both", 8080, 10110, 4800, 8081, 10200, "0.0.0.0", SECOND)

  const VALID_BAUD_RATES: set<int> := {4800, 9600, 19200, 38400}
  const DEFAULT_BAUD := 4800

  /** The baud-rate check: a listed rate is kept, any other becomes 4800. */
  function NormalizeBaud(baud: int): (r: int)
    ensures r in VALID_BAUD_RATES
    ensures r == baud <==> baud in VALID_BAUD_RATES
    ensures baud !in VALID_BAUD_RATES ==> r == DEFAULT_BAUD
  {
    if baud in VALID_BAUD_RATES then baud else DEFAULT_BAUD
  }

  /** Normalising twice is normalising once. */
  lemma NormalizeBaudIdempotent(baud: int)
    ensures NormalizeBaud(NormalizeBaud(baud)) == NormalizeBaud(baud)
  {
  }

  predicate Runs0183(protocol: string) { protocol == "both" || protocol == "nmea0183" }
  predicate Runs2000(protocol: string) { protocol == "both" || protocol == "nmea2000" }

  /** The four protocol values main distinguishes: each valid one runs its
      protocols, anything else runs neither and is an error. */
  lemma ProtocolCases(protocol: string)
    ensures Runs0183(protocol) && Runs2000(protocol) <==> protocol == "both"
    ensures Runs0183(protocol) && !Runs2000(protocol) <==> protocol == "nmea0183"
    ensures !Runs0183(protocol) && Runs2000(protocol) <==> protocol == "nmea2000"
  {
    assert "both" != "nmea0183" && "both" != "nmea2000" && "nmea0183" != "nmea2000" by {
      assert "both"[0] != "nmea0183"[0];
      assert "nmea0183"[4] != "nmea2000"[4];
    }
  }

  datatype ServerKind = WebSocketServer | TcpServer

  /** What main builds: the NMEA 0183 servers in the order they are started
      and stopped, the NMEA 2000 transport and WebSocket configurations when
      the simulator is built, and the exit code of an invalid protocol. */
  datatype Wiring = Wiring(
    nmea0183: seq<(ServerKind, Config)>,
    nmea2000: Option<(Config, Config)>,
    exitCode: Option<int>)

  /** The sequential wiring of main before any server starts: the baud
      check, then the NMEA 0183 servers, then the NMEA 2000 configurations,
      then the protocol check. */
  method Configure(flags: Flags) returns (w: Wiring)
    ensures Runs0183(flags.protocol) ==> (
      |w.nmea0183| == 2 &&
      w.nmea0183[0].0 == WebSocketServer && w.nmea0183[1].0 == TcpServer &&
      w.nmea0183[0].1.port == flags.nmea0183WsPort && w.nmea0183[1].1.port == flags.nmea0183TcpPort &&
      w.nmea0183[0].1.(port := 0) == w.nmea0183[1].1.(port := 0))
    ensures !Runs0183(flags.protocol) ==> w.nmea0183 == []
    ensures forall i :: 0 <= i < |w.nmea0183| ==>
      var cfg := w.nmea0183[i].1;
      cfg.host == flags.host && cfg.updateInterval == flags.interval && cfg.protocol == "nmea0183" &&
      cfg.sentenceOptions == SentenceOptions(true, true, true) && cfg.baudRate == NormalizeBaud(flags.baud)
    ensures w.nmea2000.Some? <==> Runs2000(flags.protocol)
    ensures w.nmea2000.Some? ==>
      var (tcp, ws) := w.nmea2000.value;
      tcp.port == flags.nmea2000TcpPort && ws.port == flags.nmea2000WsPort &&
      tcp.(port := 0) == ws.(port := 0) &&
      tcp.host == flags.host && tcp.updateInterval == flags.interval && tcp.protocol == "nmea2000" &&
      tcp.baudRate == 0 && tcp.sentenceOptions == SentenceOptions(false, false, false)
    ensures w.exitCode == (if Runs0183(flags.protocol) || Runs2000(flags.protocol) then None else Some(1))
  {
    var baudRate := flags.baud;
    if baudRate !in VALID_BAUD_RATES {
      baudRate := DEFAULT_BAUD;
    }
    var servers: seq<(ServerKind, Config)> := [];
    if flags.protocol == "both" || flags.protocol == "nmea0183" {
      var cfg := Config(flags.host, 0, flags.interval, SentenceOptions(true, true, true), baudRate, "nmea0183");
      var wsCfg := cfg.(port := flags.nmea0183WsPort);
      servers := servers + [(WebSocketServer, wsCfg)];
      var tcpCfg := cfg.(port := flags.nmea0183TcpPort);
      servers := servers + [(TcpServer, tcpCfg)];
    }
    var pair: Option<(Config, Config)> := None;
    if flags.protocol == "both" || flags.protocol == "nmea2000" {
      var tcpCfg := Config(flags.host, flags.nmea2000TcpPort, flags.interval, SentenceOptions(false, false, false), 0, "nmea2000");
      var wsCfg := Config(flags.host, flags.nmea2000WsPort, flags.interval, SentenceOptions(false, false, false), 0, "nmea2000");
      pair := Some((tcpCfg, wsCfg));
    }
    var exitCode: Option<int> := None;
    if flags.protocol != "both" && flags.protocol != "nmea0183" && flags.protocol != "nmea2000" {
      exitCode := Some(1);
    }
    w := Wiring(servers, pair, exitCode);
  }

  /** With the defaults, both protocols run: NMEA 0183 on 8080 and 10110 at
      4800 baud, NMEA 2000 on 10200 and 8081, once a second. */
  method DefaultWiring() returns (w: Wiring)
    ensures |w.nmea0183| == 2 && w.nmea0183[0].1.port == 8080 && w.nmea0183[1].1.port == 10110
    ensures w.nmea0183[0].1.baudRate == 4800 && w.nmea0183[0].1.updateInterval == SECOND
    ensures w.nmea2000.Some? && w.nmea2000.value.0.port == 10200 && w.nmea2000.value.1.port == 8081
    ensures w.exitCode.None?
  {
    w := Configure(DEFAULT_FLAGS);
  }

  /** What the NMEA 2000 start-up comes to: the exit code if main exits,
      whether main is held for ever inside the simulator's Start, whether
      the simulation loop runs, and whether the WebSocket server serves. */
  datatype Outcome = Outcome(exitCode: Option<int>, blocked: bool, loopRuns: bool, wsServing: bool)

  /** The NMEA 2000 branch of main as written. main launches the WebSocket
      server's Start in a goroutine and then calls the simulator's Start,
      which starts the transport and then the same WebSocket server again.
      WebSocket2000Server.Start returns only when its HTTP server stops, and
      the port can be bound only once. `goroutineFirst` says which of the
      two WebSocket starts runs first: the goroutine's, or the simulator's
      (which runs only after the transport started). Each sink answers the
      simulator with what the real server's Start answers at that point. */
  method StartNmea2000AsWritten(tcpCfg: Config, wsCfg: Config, interval: int,
                                goroutineFirst: bool, tcpListenOk: bool, portFree: bool)
    returns (o: Outcome)
    ensures !o.loopRuns
    ensures o.blocked <==> !goroutineFirst && tcpListenOk && portFree
    ensures o.exitCode == (if o.blocked then None else Some(1))
    ensures o.wsServing == portFree
  {
    var tcp := new NetworkTcp2000.Tcp2000Server(tcpCfg);
    var ws := new NetworkWebSocket2000.WebSocket2000Server(wsCfg);
    var early: StartResult := Failed;
    if goroutineFirst {
      early := ws.Start(portFree);
    }
    var t := tcp.Start(tcpListenOk);
    var w: StartResult := Failed;
    if t == Started {
      w := ws.Start(portFree);
    }
    if !goroutineFirst {
      early := ws.Start(portFree);
    }
    var sim := new Nmea2000Simulator.Simulator(
      Nmea2000Simulator.SinkBehaviour(t, Ok), Some(Nmea2000Simulator.SinkBehaviour(w, Ok)), interval);
    var r := sim.Start();
    o := Outcome(if r == Failed then Some(1) else None, r == Serving, sim.looping, ws.serving);
  }

  /** The evidently intended start-up, with the simulator's Start replaced by
      StartDetached and no second launch of the WebSocket server: the
      WebSocket server is started once, main does not wait for it, and the
      loop runs exactly when the transport starts. */
  method StartNmea2000(tcpCfg: Config, wsCfg: Config, interval: int, tcpListenOk: bool, portFree: bool)
    returns (o: Outcome)
    ensures o.loopRuns == tcpListenOk && !o.blocked
    ensures o.exitCode == (if tcpListenOk then None else Some(1))
    ensures o.wsServing == (tcpListenOk && portFree)
  {
    var tcp := new NetworkTcp2000.Tcp2000Server(tcpCfg);
    var ws := new NetworkWebSocket2000.WebSocket2000Server(wsCfg);
    var t := tcp.Start(tcpListenOk);
    var w: StartResult := Failed;
    if t == Started {
      w := ws.Start(portFree);
    }
    var sim := new Nmea2000Simulator.Simulator(
      Nmea2000Simulator.SinkBehaviour(t, Ok), Some(Nmea2000Simulator.SinkBehaviour(w, Ok)), interval);
    var r := sim.StartDetached();
    o := Outcome(if r == Failed then Some(1) else None, r == Serving, sim.looping, ws.serving);
  }

  /** An input that shows it: the transport listens and the port is free,
      and the simulator's WebSocket start runs first. main then never gets
      past the simulator's Start; the corrected start-up runs the loop. */
  method StartNmea2000Witness() returns (asWritten: Outcome, corrected: Outcome)
    ensures asWritten.blocked && !asWritten.loopRuns && asWritten.exitCode.None?
    ensures corrected.loopRuns && !corrected.blocked && corrected.exitCode.None?
  {
    var w := Configure(DEFAULT_FLAGS);
    var (tcpCfg, wsCfg) := w.nmea2000.value;
    asWritten := StartNmea2000AsWritten(tcpCfg, wsCfg, SECOND, false, true, true);
    corrected := StartNmea2000(tcpCfg, wsCfg, SECOND, true, true);
  }

  /** The NMEA 0183 start: each server's Start is launched in its own
      goroutine and its error is only logged, so main goes on whatever it
      returns. */
  method StartNmea0183(ws: NetworkWebSocket.WebSocketServer, tcp: NetworkTcp.TcpServer,
                       wsPortFree: bool, tcpListenOk: bool)
    modifies ws, tcp
    ensures ws.serving == (old(ws.serving) || wsPortFree) && tcp.listening == (old(tcp.listening) || tcpListenOk)
    ensures ws.clients == old(ws.clients) && tcp.clients == old(tcp.clients)
    ensures ws.written == old(ws.written) && ws.closed == old(ws.closed) &&
            tcp.written == old(tcp.written) && tcp.closed == old(tcp.closed)
  {
    var r := ws.Start(wsPortFree);
    r := tcp.Start(tcpListenOk);
  }

  /** What the shutdown stopped, in order. */
  datatype Stopped = StoppedWebSocket0183 | StoppedTcp0183 | StoppedSimulator

  /** The shutdown after the interrupt: the NMEA 0183 servers in the order
      they were built, then the simulator if there is one. Their errors are
      ignored. The servers share no state, so their final states cannot show
      the order; `log` records it, one entry appended right after each Stop
      call returns. */
  method Shutdown(servers: Option<(NetworkWebSocket.WebSocketServer, NetworkTcp.TcpServer)>,
                  sim: Nmea2000Simulator.Simulator?, listenerCloseFails: bool)
    returns (log: seq<Stopped>)
    requires servers.Some? ==> !servers.value.0.base.doneClosed && servers.value.0.base != servers.value.1.base
    requires sim != null ==> !sim.doneClosed
    modifies if servers.Some? then {servers.value.0, servers.value.0.base, servers.value.1, servers.value.1.base} else {}
    modifies sim
    ensures log == (if servers.Some? then [StoppedWebSocket0183, StoppedTcp0183] else []) +
                   (if sim != null then [StoppedSimulator] else [])
    ensures servers.Some? ==>
              var ws := servers.value.0;
              ws.base.doneClosed && ws.clients == {} && ws.closed == old(ws.closed) + old(ws.clients) &&
              ws.serving == old(ws.serving) && ws.written == old(ws.written)
    ensures servers.Some? ==>
              var tcp := servers.value.1;
              tcp.base.doneClosed && tcp.written == old(tcp.written) &&
              (if old(tcp.base.doneClosed)
               then tcp.clients == old(tcp.clients) && tcp.closed == old(tcp.closed) && tcp.listening == old(tcp.listening)
               else tcp.clients == {} && tcp.closed == old(tcp.closed) + old(tcp.clients) && !tcp.listening)
    ensures sim != null ==>
              sim.doneClosed && sim.looping == old(sim.looping) &&
              sim.calls == old(sim.calls) + [Nmea2000Simulator.StopCall(Nmea2000Simulator.Transport)] +
                           (if sim.transport.stop == Ok && sim.webSocket.Some?
                            then [Nmea2000Simulator.StopCall(Nmea2000Simulator.WebSocket)] else [])
  {
    log := [];
    if servers.Some? {
      var (ws, tcp) := servers.value;
      var st := ws.Stop();
      log := log + [StoppedWebSocket0183];
      st := tcp.Stop(listenerCloseFails);
      log := log + [StoppedTcp0183];
    }
    if sim != null {
      var st := sim.Stop();
      log := log + [StoppedSimulator];
    }
  }
}
