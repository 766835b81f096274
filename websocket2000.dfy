/** pkg/network/websocket2000.go: the NMEA 2000 WebSocket server. SendPGN
    formats one frame (module PgnFrame) and sends it as a text message to
    every client, closing and deleting a client as soon as its send fails. */
module NetworkWebSocket2000 {
  import opened Bytes
  import opened PgnTypes
  import opened PgnFrame
  import opened Network
  import opened Registry

  class WebSocket2000Server {
    const base: BaseServer
    /** The HTTP server is listening (ListenAndServe is running). */
    var serving: bool
    /** The registry. */
    var clients: set<ConnId>
    /** Every frame sent to a client, in order. */
    var written: seq<Attempt>
    /** Connections the server has closed. */
    var closed: set<ConnId>

    /** NewWebSocket2000Server. */
    constructor (cfg: Config)
      ensures fresh(base) && base.config == cfg && !base.doneClosed
      ensures !serving && clients == {} && written == [] && closed == {}
    {
      base := new BaseServer(cfg);
      serving := false;
      clients := {};
      written := [];
      closed := {};
    }

    /** Start: serve HTTP on host:port. ListenAndServe does not return while
        it serves; it returns an error at once when the address cannot be
        bound, which is so when this server already holds it. Start never
        returns nil. */
    method Start(portFree: bool) returns (r: StartResult)
      modifies this
      ensures r == (if !old(serving) && portFree then Serving else Failed)
      ensures serving == (old(serving) || r == Serving)
      ensures clients == old(clients) && written == old(written) && closed == old(closed)
    {
      if serving || !portFree {
        return Failed;
      }
      serving := true;
      r := Serving;
    }

    /** The goroutine Start leaves behind: once the context is done it closes
        the HTTP server. */
    method ContextDone()
      modifies this
      ensures !serving
      ensures clients == old(clients) && written == old(written) && closed == old(closed)
    {
      serving := false;
    }

    /** handleWebSocket: a successful upgrade registers the connection. */
    method Register(conn: Option<ConnId>)
      modifies this
      ensures clients == if conn.Some? then old(clients) + {conn.value} else old(clients)
      ensures serving == old(serving) && written == old(written) && closed == old(closed)
    {
      if conn.Some? {
        clients := clients + {conn.value};
      }
    }

    /** The reader goroutine's exit: delete the connection and close it. */
    method Disconnect(c: ConnId)
      modifies this
      ensures clients == old(clients) - {c} && closed == old(closed) + {c}
      ensures serving == old(serving) && written == old(written)
    {
      clients := clients - {c};
      closed := closed + {c};
    }

    /** SendPGN: the frame to every client in some order; a client whose
        send fails is closed and deleted on the spot. Returns nil. */
    method SendPGN(msg: Message, fails: ConnId -> bool) returns (st: Status, ghost order: seq<ConnId>)
      modifies this
      ensures Enumerates(order, old(clients))
      ensures written == old(written) + Fanout(order, Frame(msg))
      ensures clients == old(clients) - Failing(old(clients), fails)
      ensures closed == old(closed) + Failing(old(clients), fails)
      ensures forall c :: c in clients <==> c in old(clients) && !fails(c)
      ensures serving == old(serving) && st == Ok
    {
      var frame := FormatPgnMessage(msg);
      ghost var snapshot := clients;
      ghost var written0 := written;
      ghost var closed0 := closed;
      order := [];
      var pending := clients;
      while pending != {}
        invariant pending <= snapshot
        invariant Enumerates(order, snapshot - pending)
        invariant written == written0 + Fanout(order, frame)
        invariant clients == snapshot - Failing(snapshot - pending, fails)
        invariant closed == closed0 + Failing(snapshot - pending, fails)
        invariant serving == old(serving)
        decreases pending
      {
        var c :| c in pending;
        ghost var cs := clients;
        ghost var cl := closed;
        written := written + [Attempt(c, 0, frame)];
        if fails(c) {
          closed := closed + {c};
          clients := clients - {c};
        }
        SendOne(snapshot, pending, c, fails, closed0, cs, cl, clients, closed);
        EnumeratesVisit(order, snapshot, pending, c);
        FanoutSnoc(order, c, frame);
        order := order + [c];
        pending := pending - {c};
      }
      assert snapshot - pending == snapshot;
      st := Ok;
    }

    static lemma SendOne(snapshot: set<ConnId>, pending: set<ConnId>, c: ConnId, fails: ConnId -> bool,
        closed0: set<ConnId>, cs: set<ConnId>, cl: set<ConnId>, cs': set<ConnId>, cl': set<ConnId>)
      requires c in pending && pending <= snapshot
      requires cs == snapshot - Failing(snapshot - pending, fails) && cl == closed0 + Failing(snapshot - pending, fails)
      requires cs' == (if fails(c) then cs - {c} else cs) && cl' == (if fails(c) then cl + {c} else cl)
      ensures cs' == snapshot - Failing(snapshot - (pending - {c}), fails)
      ensures cl' == closed0 + Failing(snapshot - (pending - {c}), fails)
    {
      assert Failing(snapshot - (pending - {c}), fails) ==
             Failing(snapshot - pending, fails) + (if fails(c) then {c} else {});
    }

    /** Stop: close Done first (not guarded, so a second Stop would panic),
        then close every client and replace the registry with an empty one.
        Returns nil. */
    method Stop() returns (st: Status)
      requires !base.doneClosed
      modifies this, base
      ensures base.doneClosed && clients == {} && closed == old(closed) + old(clients)
      ensures serving == old(serving) && written == old(written) && st == Ok
    {
      base.CloseDone();
      closed := closed + clients;
      clients := {};
      st := Ok;
    }
  }

  /** websocket2000_test.go, connection tracking: three upgrades give three
      clients; one reader exit leaves two. */
  method ConnectionCount() returns (before: nat, after: nat)
    ensures before == 3 && after == 2
  {
    var cfg := Config("localhost", 0, 1_000_000_000, SentenceOptions(false, false, false), 0, "nmea2000");
    var s := new WebSocket2000Server(cfg);
    s.Register(Some(1));
    s.Register(Some(2));
    s.Register(Some(3));
    before := |s.clients|;
    s.Disconnect(1);
    assert s.clients == {2, 3};
    after := |s.clients|;
  }

  /** Every client in the registry when SendPGN began is sent the frame
      exactly once, and the clients SendPGN keeps are exactly those that were
      sent the frame and whose send did not fail. */
  lemma SendReachesEach(order: seq<ConnId>, clients: set<ConnId>, msg: Message, fails: ConnId -> bool, c: ConnId)
    requires Enumerates(order, clients)
    ensures Project(Fanout(order, Frame(msg)), c) == if c in clients then [Attempt(c, 0, Frame(msg))] else []
    ensures c in clients - Failing(clients, fails) <==> Project(Fanout(order, Frame(msg)), c) != [] && !fails(c)
  {
    ProjectFanout(order, Frame(msg), c);
  }
}
