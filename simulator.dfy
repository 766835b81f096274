/** pkg/nmea2000/simulator.go: the NMEA 2000 simulator. It starts its
    transport and then its optional WebSocket sink, stops them in the same
    order, and on every tick sends a fixed batch of five PGNs, each to the
    transport and then to the WebSocket sink. The sinks are modelled as mock
    servers: each answers Start and Stop with a configured result, and every
    call the simulator makes on them is recorded, in order, in `calls`. */
module Nmea2000Simulator {
  import opened Bytes
  import opened PgnTypes
  import opened PgnEncoder
  import opened Network

  datatype Sink = Transport | WebSocket

  /** A call made on a sink. */
  datatype Call = StartCall(sink: Sink) | StopCall(sink: Sink) | SendCall(sink: Sink, msg: Message)

  /** What a mock sink answers. SendPGN's answer is not configured: the
      simulator ignores it. */
  datatype SinkBehaviour = SinkBehaviour(start: StartResult, stop: Status)

  /** The fixed readings of generateAndSendMessages, as the scaled integers
      the encoders store: heading 0.5 rad, speeds 2.5 and 2.7 m/s, depth
      10.5 m with offset -1.5 m and range 100 m, position 48.1964 and
      16.3637 degrees, apparent wind 5.5 m/s at 2.0 rad. */
  const HEADING_READING := VesselHeading(5000, 0, 0, 0, 0)
  const SPEED_READING := SpeedData(250, 270, 0)
  const DEPTH_READING := WaterDepth(1050, -150, 10000)
  const POSITION_READING := Position(481964000, 163637000)
  const WIND_READING := WindData(550, 20000, 1)

  /** The PGNs of one tick, in the order sent. */
  const BATCH_PGNS: seq<uint32> := [VESSEL_HEADING, SPEED, WATER_DEPTH, POSITION_RAPID, WIND_DATA]

  /** The five messages of one tick. */
  function Batch(): seq<Message>
  {
    [Message(VESSEL_HEADING, HeadingLayout(HEADING_READING)),
     Message(SPEED, SpeedLayout(SPEED_READING)),
     Message(WATER_DEPTH, DepthLayout(DEPTH_READING)),
     Message(POSITION_RAPID, PositionLayout(POSITION_READING)),
     Message(WIND_DATA, WindLayout(WIND_READING))]
  }

  /** Each message to the transport, then to the WebSocket sink when there
      is one, before the next message. */
  function Deliveries(msgs: seq<Message>, hasWebSocket: bool): seq<Call>
  {
    if msgs == [] then []
    else [SendCall(Transport, msgs[0])] + (if hasWebSocket then [SendCall(WebSocket, msgs[0])] else []) +
         Deliveries(msgs[1..], hasWebSocket)
  }

  /** The messages sent to one sink, in order. */
  function SentTo(calls: seq<Call>, sink: Sink): seq<Message>
  {
    if calls == [] then []
    else (if calls[0].SendCall? && calls[0].sink == sink then [calls[0].msg] else []) + SentTo(calls[1..], sink)
  }

  class Simulator {
    const transport: SinkBehaviour
    const webSocket: Option<SinkBehaviour>
    const updatePeriod: int
    /** `done` has been closed. */
    var doneClosed: bool
    /** simulationLoop is running. */
    var looping: bool
    /** The calls made on the sinks. */
    var calls: seq<Call>

    /** New: keep the sinks and the period; `done` open. */
    constructor (transport: SinkBehaviour, webSocket: Option<SinkBehaviour>, updatePeriod: int)
      ensures this.transport == transport && this.webSocket == webSocket && this.updatePeriod == updatePeriod
      ensures !doneClosed && !looping && calls == []
    {
      this.transport := transport;
      this.webSocket := webSocket;
      this.updatePeriod := updatePeriod;
      doneClosed := false;
      looping := false;
      calls := [];
    }

    /** Start: start the transport and return its error, if any; then the
        WebSocket sink, if any, and return its error; then launch the loop.
        A sink whose Start does not return (`Serving`) holds Start with it. */
    method Start() returns (r: StartResult)
      modifies this
      ensures calls == old(calls) + [StartCall(Transport)] +
                (if transport.start == Started && webSocket.Some? then [StartCall(WebSocket)] else [])
      ensures r == Started <==> transport.start == Started && (webSocket.Some? ==> webSocket.value.start == Started)
      ensures transport.start != Started ==> r == transport.start
      ensures transport.start == Started && webSocket.Some? ==> r == webSocket.value.start
      ensures looping == (old(looping) || r == Started) && doneClosed == old(doneClosed)
    {
      calls := calls + [StartCall(Transport)];
      if transport.start != Started {
        return transport.start;
      }
      if webSocket.Some? {
        calls := calls + [StartCall(WebSocket)];
        if webSocket.value.start != Started {
          return webSocket.value.start;
        }
      }
      looping := true;
      r := Started;
    }

    /** Start as it is evidently meant to work: the transport is awaited,
        and the WebSocket sink is launched in the background, the way main
        launches the NMEA 0183 servers, so its answer is not waited for. The
        loop runs exactly when the transport started. */
    method StartDetached() returns (r: StartResult)
      modifies this
      ensures calls == old(calls) + [StartCall(Transport)] +
                (if transport.start == Started && webSocket.Some? then [StartCall(WebSocket)] else [])
      ensures r == transport.start
      ensures looping == (old(looping) || r == Started) && doneClosed == old(doneClosed)
    {
      calls := calls + [StartCall(Transport)];
      if transport.start != Started {
        return transport.start;
      }
      if webSocket.Some? {
        calls := calls + [StartCall(WebSocket)];
      }
      looping := true;
      r := Started;
    }

    /** Stop: close `done` (not guarded: a second Stop would panic), stop
        the transport and return its error without stopping the WebSocket
        sink; otherwise return the WebSocket sink's result, or nil. */
    method Stop() returns (st: Status)
      requires !doneClosed
      modifies this
      ensures doneClosed && looping == old(looping)
      ensures calls == old(calls) + [StopCall(Transport)] +
                (if transport.stop == Ok && webSocket.Some? then [StopCall(WebSocket)] else [])
      ensures st == if transport.stop == Err then Err else if webSocket.Some? then webSocket.value.stop else Ok
    {
      doneClosed := true;
      calls := calls + [StopCall(Transport)];
      if transport.stop == Err {
        return Err;
      }
      if webSocket.Some? {
        calls := calls + [StopCall(WebSocket)];
        return webSocket.value.stop;
      }
      st := Ok;
    }

    /** SendPGN on the transport, then on the WebSocket sink if there is
        one. Their errors are ignored. */
    method Publish(msg: Message)
      modifies this
      ensures calls == old(calls) + Deliveries([msg], webSocket.Some?)
      ensures doneClosed == old(doneClosed) && looping == old(looping)
    {
      calls := calls + [SendCall(Transport, msg)];
      if webSocket.Some? {
        calls := calls + [SendCall(WebSocket, msg)];
      }
      assert [msg][1..] == [];
    }

    /** Publish one more message after `sent`, keeping the log the
        deliveries of all of them. */
    method Published(ghost calls0: seq<Call>, ghost sent: seq<Message>, msg: Message) returns (ghost sent': seq<Message>)
      requires calls == calls0 + Deliveries(sent, webSocket.Some?)
      modifies this
      ensures sent' == sent + [msg] && calls == calls0 + Deliveries(sent', webSocket.Some?)
      ensures doneClosed == old(doneClosed) && looping == old(looping)
    {
      Publish(msg);
      assert calls == calls0 + (Deliveries(sent, webSocket.Some?) + Deliveries([msg], webSocket.Some?));
      DeliveriesAppend(sent, [msg], webSocket.Some?);
      sent' := sent + [msg];
    }

    /** generateAndSendMessages: encode each reading and publish it. */
    method GenerateAndSendMessages()
      modifies this
      ensures calls == old(calls) + Deliveries(Batch(), webSocket.Some?)
      ensures doneClosed == old(doneClosed) && looping == old(looping)
    {
      ghost var calls0 := calls;
      ghost var sent: seq<Message> := [];
      var data := EncodeVesselHeading(HEADING_READING);
      sent := Published(calls0, sent, Message(VESSEL_HEADING, data));
      data := EncodeSpeedData(SPEED_READING);
      sent := Published(calls0, sent, Message(SPEED, data));
      data := EncodeWaterDepth(DEPTH_READING);
      sent := Published(calls0, sent, Message(WATER_DEPTH, data));
      data := EncodePosition(POSITION_READING);
      sent := Published(calls0, sent, Message(POSITION_RAPID, data));
      data := EncodeWindData(WIND_READING);
      sent := Published(calls0, sent, Message(WIND_DATA, data));
      assert sent == Batch();
    }

    /** One tick of simulationLoop: it runs only while the loop is running
        and neither the context nor `done` is closed. */
    method Tick(ctxDone: bool)
      modifies this
      ensures calls == old(calls) +
                (if looping && !doneClosed && !ctxDone then Deliveries(Batch(), webSocket.Some?) else [])
      ensures doneClosed == old(doneClosed) && looping == old(looping)
    {
      if !looping || doneClosed || ctxDone {
        assert calls + [] == calls;
        return;
      }
      GenerateAndSendMessages();
    }
  }

  lemma {:induction false} DeliveriesAppend(a: seq<Message>, b: seq<Message>, hasWebSocket: bool)
    ensures Deliveries(a + b, hasWebSocket) == Deliveries(a, hasWebSocket) + Deliveries(b, hasWebSocket)
  {
    if a == [] {
      assert a + b == b;
    } else {
      assert (a + b)[0] == a[0] && (a + b)[1..] == a[1..] + b;
      DeliveriesAppend(a[1..], b, hasWebSocket);
    }
  }

  /** One tick sends PGNs 127250, 128259, 128267, 129025, 130306, in that
      order; each is in the table of common PGNs and its payload is the
      8 bytes the table declares. */
  lemma BatchShape()
    ensures |Batch()| == |BATCH_PGNS| == 5
    ensures forall i :: 0 <= i < 5 ==>
              Batch()[i].pgn == BATCH_PGNS[i] && Batch()[i].pgn in CommonPgns &&
              |Batch()[i].data| == CommonPgns[Batch()[i].pgn].length == 8
  {
  }

  /** The transport receives every message of the batch in order, and so
      does the WebSocket sink when there is one; nothing else is sent. */
  lemma {:induction false} DeliveriesPerSink(msgs: seq<Message>, hasWebSocket: bool)
    ensures SentTo(Deliveries(msgs, hasWebSocket), Transport) == msgs
    ensures SentTo(Deliveries(msgs, hasWebSocket), WebSocket) == if hasWebSocket then msgs else []
  {
    if msgs != [] {
      DeliveriesPerSink(msgs[1..], hasWebSocket);
      var head := [SendCall(Transport, msgs[0])] + (if hasWebSocket then [SendCall(WebSocket, msgs[0])] else []);
      SentToAppend(head, Deliveries(msgs[1..], hasWebSocket), Transport);
      SentToAppend(head, Deliveries(msgs[1..], hasWebSocket), WebSocket);
      if hasWebSocket {
        SentToAppend([SendCall(Transport, msgs[0])], [SendCall(WebSocket, msgs[0])], Transport);
        SentToAppend([SendCall(Transport, msgs[0])], [SendCall(WebSocket, msgs[0])], WebSocket);
      }
      assert msgs == [msgs[0]] + msgs[1..];
    }
  }

  lemma {:induction false} SentToAppend(a: seq<Call>, b: seq<Call>, sink: Sink)
    ensures SentTo(a + b, sink) == SentTo(a, sink) + SentTo(b, sink)
  {
    if a == [] {
      assert a + b == b;
    } else {
      assert (a + b)[0] == a[0] && (a + b)[1..] == a[1..] + b;
      SentToAppend(a[1..], b, sink);
    }
  }

  /** Message i goes to the transport and then, with a WebSocket sink, to it,
      before message i + 1. */
  lemma {:induction false} DeliveriesOrder(msgs: seq<Message>, hasWebSocket: bool)
    ensures |Deliveries(msgs, hasWebSocket)| == |msgs| * (if hasWebSocket then 2 else 1)
    ensures !hasWebSocket ==> forall i :: 0 <= i < |msgs| ==> Deliveries(msgs, false)[i] == SendCall(Transport, msgs[i])
    ensures hasWebSocket ==> forall i :: 0 <= i < |msgs| ==>
              Deliveries(msgs, true)[2 * i] == SendCall(Transport, msgs[i]) &&
              Deliveries(msgs, true)[2 * i + 1] == SendCall(WebSocket, msgs[i])
  {
    if msgs != [] {
      DeliveriesOrder(msgs[1..], hasWebSocket);
      var d := Deliveries(msgs, hasWebSocket);
      var rest := Deliveries(msgs[1..], hasWebSocket);
      if hasWebSocket {
        assert d == [SendCall(Transport, msgs[0]), SendCall(WebSocket, msgs[0])] + rest;
        forall i | 1 <= i < |msgs|
          ensures d[2 * i] == SendCall(Transport, msgs[i]) && d[2 * i + 1] == SendCall(WebSocket, msgs[i])
        {
          assert d[2 * i] == rest[2 * (i - 1)] && d[2 * i + 1] == rest[2 * (i - 1) + 1];
          assert msgs[1..][i - 1] == msgs[i];
        }
      } else {
        assert d == [SendCall(Transport, msgs[0])] + rest;
        forall i | 1 <= i < |msgs|
          ensures d[i] == SendCall(Transport, msgs[i])
        {
          assert d[i] == rest[i - 1];
          assert msgs[1..][i - 1] == msgs[i];
        }
      }
    }
  }

  /** simulator_test.go, TestSimulator: two mock sinks that accept every
      call; start, two ticks, stop. Both sinks are started, receive the
      batch twice in order, and are stopped. */
  method MockRun() returns (started: StartResult, stopped: Status, calls: seq<Call>)
    ensures started == Started && stopped == Ok
    ensures calls == [StartCall(Transport), StartCall(WebSocket)] + Deliveries(Batch(), true) +
                     Deliveries(Batch(), true) + [StopCall(Transport), StopCall(WebSocket)]
  {
    var ok := SinkBehaviour(Started, Ok);
    var sim := new Simulator(ok, Some(ok), 100_000_000);
    started := sim.Start();
    assert sim.looping && !sim.doneClosed && sim.calls == [StartCall(Transport), StartCall(WebSocket)];
    sim.Tick(false);
    sim.Tick(false);
    ghost var ticked := sim.calls;
    stopped := sim.Stop();
    calls := sim.calls;
    assert calls == ticked + [StopCall(Transport), StopCall(WebSocket)];
  }
}
