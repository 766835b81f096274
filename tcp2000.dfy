/** pkg/network/tcp2000.go: the NMEA 2000 TCP server. SendPGN formats one
    frame for the message and writes it to every client; clients whose write
    failed are dropped and closed afterwards. The frame format is module
    PgnFrame. */
module NetworkTcp2000 {
  import opened Bytes
  import opened PgnTypes
  import opened PgnFrame
  import opened Network
  import opened Registry

  class Tcp2000Server {
    const base: BaseServer
    /** A listener is open. */
    var listening: bool
    /** The registry. */
    var clients: set<ConnId>
    /** Every frame written to a client, in order. */
    var written: seq<Attempt>
    /** Connections the server has closed. */
    var closed: set<ConnId>

    /** NewTCP2000Server. */
    constructor (cfg: Config)
      ensures fresh(base) && base.config == cfg && !base.doneClosed
      ensures !listening && clients == {} && written == [] && closed == {}
    {
      base := new BaseServer(cfg);
      listening := false;
      clients := {};
      written := [];
      closed := {};
    }

    /** Start: listen on host:port and return; the accept loop (Accept) runs
        on its own. A failed listen is returned as the error. */
    method Start(listenOk: bool) returns (r: StartResult)
      modifies this
      ensures r == (if listenOk then Started else Failed)
      ensures listening == (old(listening) || listenOk)
      ensures clients == old(clients) && written == old(written) && closed == old(closed)
    {
      if !listenOk {
        return Failed;
      }
      listening := true;
      r := Started;
    }

    /** One round of acceptLoop: it has ended once the context or Done is
        closed; otherwise an accepted connection joins the registry and a
        failed accept is skipped. The loop exists only once a listen has
        succeeded. */
    method Accept(ctxDone: bool, conn: Option<ConnId>)
      requires listening || base.doneClosed
      modifies this
      ensures clients == if !ctxDone && !base.doneClosed && conn.Some?
                         then old(clients) + {conn.value} else old(clients)
      ensures listening == old(listening) && written == old(written) && closed == old(closed)
    {
      if ctxDone || base.doneClosed {
        return;
      }
      if conn.Some? {
        clients := clients + {conn.value};
      }
    }

    /** SendPGN: the frame of msg to every client in some order, collecting
        the clients whose write failed; then those are dropped and closed.
        The error result is always nil. */
    method SendPGN(msg: Message, fails: ConnId -> bool) returns (st: Status, ghost order: seq<ConnId>)
      modifies this
      ensures Enumerates(order, old(clients))
      ensures written == old(written) + Fanout(order, Frame(msg))
      ensures clients == old(clients) - Failing(old(clients), fails)
      ensures closed == old(closed) + Failing(old(clients), fails)
      ensures forall c :: c in clients <==> c in old(clients) && !fails(c)
      ensures listening == old(listening) && st == Ok
    {
      var frame := FormatPgnMessage(msg);
      ghost var snapshot := clients;
      ghost var written0 := written;
      ghost var closed0 := closed;
      var failedClients: seq<ConnId> := [];
      order := [];
      var pending := clients;
      while pending != {}
        invariant pending <= snapshot
        invariant Enumerates(order, snapshot - pending)
        invariant written == written0 + Fanout(order, frame)
        invariant Members(failedClients) == Failing(snapshot - pending, fails)
        invariant clients == snapshot && closed == closed0 && listening == old(listening)
        decreases pending
      {
        var c :| c in pending;
        ghost var failed0 := failedClients;
        written := written + [Attempt(c, 0, frame)];
        if fails(c) {
          failedClients := failedClients + [c];
        }
        FailingVisit(snapshot, pending, c, fails, failed0, failedClients);
        EnumeratesVisit(order, snapshot, pending, c);
        FanoutVisit(written0, order, c, frame, written);
        order := order + [c];
        pending := pending - {c};
      }
      assert snapshot - pending == snapshot;
      var i := 0;
      while i < |failedClients|
        invariant 0 <= i <= |failedClients|
        invariant clients == snapshot - Members(failedClients[..i])
        invariant closed == closed0 + Members(failedClients[..i])
        invariant written == written0 + Fanout(order, frame) && listening == old(listening)
      {
        MembersSnoc(failedClients, i);
        DropOne(snapshot, closed0, Members(failedClients[..i]), failedClients[i], clients, closed);
        clients := clients - {failedClients[i]};
        closed := closed + {failedClients[i]};
        i := i + 1;
      }
      assert failedClients[..i] == failedClients;
      st := Ok;
    }

    static lemma FanoutVisit(written0: seq<Attempt>, order: seq<ConnId>, c: ConnId, frame: seq<byte>, w: seq<Attempt>)
      requires w == (written0 + Fanout(order, frame)) + [Attempt(c, 0, frame)]
      ensures w == written0 + Fanout(order + [c], frame)
    {
      FanoutSnoc(order, c, frame);
    }

    /** Stop: close the listener if there is one (its error is ignored),
        close Done, close and drop every client; return nil. Done is closed
        without a guard, so a second Stop would panic. */
    method Stop() returns (st: Status)
      requires !base.doneClosed
      modifies this, base
      ensures base.doneClosed && !listening && clients == {}
      ensures closed == old(closed) + old(clients) && written == old(written) && st == Ok
    {
      listening := false;
      base.CloseDone();
      closed := closed + clients;
      clients := {};
      st := Ok;
    }
  }

  /** Every client in the registry receives the frame exactly once, and the
      frame reads back as the message. */
  lemma SendReachesEach(order: seq<ConnId>, clients: set<ConnId>, msg: Message, c: ConnId)
    requires Enumerates(order, clients)
    ensures Project(Fanout(order, Frame(msg)), c) == if c in clients then [Attempt(c, 0, Frame(msg))] else []
    ensures ParseFrame(Frame(msg)) == Some(msg)
  {
    ProjectFanout(order, Frame(msg), c);
    ParseFormatted(msg);
  }
}
