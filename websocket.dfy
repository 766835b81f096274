/** pkg/network/websocket.go: the NMEA 0183 WebSocket server. Each tick it
    generates the enabled sentences and sends each as its own text message to
    every client, with no line ending and no byte budget; a client whose send
    fails is closed, removed and skipped for the rest of the batch. */
module NetworkWebSocket {
  import opened Bytes
  import opened Network
  import opened Registry
  import opened Sentences

  /** A WebSocket message carries the sentence alone. */
  const NO_SUFFIX: seq<byte> := []

  class WebSocketServer {
    const base: BaseServer
    /** The HTTP server is listening (ListenAndServe is running). */
    var serving: bool
    /** The registry. */
    var clients: set<ConnId>
    /** Every message sent to a client, in order. */
    var written: seq<Attempt>
    /** Connections the server has closed. */
    var closed: set<ConnId>

    /** NewWebSocketServer. */
    constructor (cfg: Config)
      ensures fresh(base) && base.config == cfg && !base.doneClosed
      ensures !serving && clients == {} && written == [] && closed == {}
    {
      base := new BaseServer(cfg);
      serving := false;
      clients := {};
      written := [];
      closed := {};
    }

    /** Start: serve HTTP on host:port. ListenAndServe does not return while
        it serves; it returns an error at once when the address cannot be
        bound, which is so when this server already holds it. */
    method Start(portFree: bool) returns (r: StartResult)
      modifies this
      ensures r == (if !old(serving) && portFree then Serving else Failed)
      ensures serving == (old(serving) || r == Serving)
      ensures clients == old(clients) && written == old(written) && closed == old(closed)
    {
      if serving || !portFree {
        return Failed;
      }
      serving := true;
      r := Serving;
    }

    /** The goroutine Start leaves behind: once the context is done it closes
        the HTTP server, and ListenAndServe returns. */
    method ContextDone()
      modifies this
      ensures !serving
      ensures clients == old(clients) && written == old(written) && closed == old(closed)
    {
      serving := false;
    }

    /** handleWebSocket: a successful upgrade registers the connection; a
        failed one changes nothing. */
    method Register(conn: Option<ConnId>)
      modifies this
      ensures clients == if conn.Some? then old(clients) + {conn.value} else old(clients)
      ensures serving == old(serving) && written == old(written) && closed == old(closed)
    {
      if conn.Some? {
        clients := clients + {conn.value};
      }
    }

    /** The reader goroutine's exit: delete the connection and close it.
        Deleting a connection already gone changes nothing. */
    method Disconnect(c: ConnId)
      modifies this
      ensures clients == old(clients) - {c} && closed == old(closed) + {c}
      ensures serving == old(serving) && written == old(written)
    {
      clients := clients - {c};
      closed := closed + {c};
    }

    /** broadcast: every client in some order, every sentence in order, up
        to the client's first failed send, which closes and removes it. */
    method Broadcast(sentences: seq<seq<byte>>, fails: (ConnId, nat) -> bool) returns (ghost order: seq<ConnId>)
      modifies this
      ensures Enumerates(order, old(clients))
      ensures written == old(written) + Unbudgeted(order, sentences, NO_SUFFIX, fails)
      ensures clients == old(clients) - FailedIn(Unbudgeted(order, sentences, NO_SUFFIX, fails), fails)
      ensures closed == old(closed) + FailedIn(Unbudgeted(order, sentences, NO_SUFFIX, fails), fails)
      ensures serving == old(serving)
    {
      ghost var snapshot := clients;
      ghost var done: seq<Attempt> := [];
      order := [];
      var pending := clients;
      while pending != {}
        invariant pending <= snapshot
        invariant Enumerates(order, snapshot - pending)
        invariant done == Unbudgeted(order, sentences, NO_SUFFIX, fails)
        invariant written == old(written) + done
        invariant clients == snapshot - FailedIn(done, fails)
        invariant closed == old(closed) + FailedIn(done, fails)
        invariant serving == old(serving)
        decreases pending
      {
        var c :| c in pending;
        done := VisitClient(c, sentences, fails, order, snapshot, done, old(written), old(closed));
        EnumeratesVisit(order, snapshot, pending, c);
        order := order + [c];
        pending := pending - {c};
      }
      assert snapshot - pending == snapshot;
    }

    /** One pass of broadcast's outer loop: c's sends, and the loop's
        invariant carried from the clients before c to those up to c. */
    method VisitClient(c: ConnId, sentences: seq<seq<byte>>, fails: (ConnId, nat) -> bool,
        ghost order: seq<ConnId>, ghost snapshot: set<ConnId>, ghost done: seq<Attempt>,
        ghost written0: seq<Attempt>, ghost closed0: set<ConnId>)
      returns (ghost done': seq<Attempt>)
      requires done == Unbudgeted(order, sentences, NO_SUFFIX, fails)
      requires written == written0 + done
      requires clients == snapshot - FailedIn(done, fails) && closed == closed0 + FailedIn(done, fails)
      modifies this
      ensures done' == Unbudgeted(order + [c], sentences, NO_SUFFIX, fails)
      ensures written == written0 + done'
      ensures clients == snapshot - FailedIn(done', fails) && closed == closed0 + FailedIn(done', fails)
      ensures serving == old(serving)
    {
      ghost var cur := SendAll(c, sentences, fails);
      UnbudgetedSnoc(order, c, sentences, fails, done, cur);
      StateAlgebra(written0, done, cur, written, snapshot, closed0, FailedIn(done, fails),
                   FailedIn(cur, fails), clients, closed);
      done' := done + cur;
    }

    /** The inner loop of broadcast for client c: each sentence in order,
        breaking at the first failed send after closing and removing c. */
    method SendAll(c: ConnId, sentences: seq<seq<byte>>, fails: (ConnId, nat) -> bool) returns (ghost cur: seq<Attempt>)
      modifies this
      ensures cur == Run(c, sentences, NO_SUFFIX, fails, 0)
      ensures written == old(written) + cur
      ensures clients == old(clients) - FailedIn(cur, fails)
      ensures closed == old(closed) + FailedIn(cur, fails)
      ensures serving == old(serving)
    {
      cur := [];
      var k := 0;
      while k < |sentences|
        invariant 0 <= k <= |sentences|
        invariant cur == Attempts(c, sentences, NO_SUFFIX, k) && forall j :: 0 <= j < k ==> !fails(c, j)
        invariant written == old(written) + cur && FailedIn(cur, fails) == {}
        invariant clients == old(clients) && closed == old(closed) && serving == old(serving)
      {
        var x := Attempt(c, k, sentences[k] + NO_SUFFIX);
        FailedSnoc(cur, x, fails);
        AttemptsSnoc(c, sentences, NO_SUFFIX, k);
        written := written + [x];
        cur := cur + [x];
        if fails(c, k) {
          RunEndsAtFailure(c, sentences, NO_SUFFIX, fails, k);
          clients := clients - {c};
          closed := closed + {c};
          return;
        }
        k := k + 1;
      }
      RunWhole(c, sentences, NO_SUFFIX, fails);
    }

    static lemma UnbudgetedSnoc(order: seq<ConnId>, c: ConnId, sentences: seq<seq<byte>>,
        fails: (ConnId, nat) -> bool, done: seq<Attempt>, cur: seq<Attempt>)
      requires done == Unbudgeted(order, sentences, NO_SUFFIX, fails)
      requires cur == Run(c, sentences, NO_SUFFIX, fails, 0)
      ensures done + cur == Unbudgeted(order + [c], sentences, NO_SUFFIX, fails)
      ensures FailedIn(done + cur, fails) == FailedIn(done, fails) + FailedIn(cur, fails)
    {
      UnbudgetedAppend(order, [c], sentences, NO_SUFFIX, fails);
      UnbudgetedSingle(c, sentences, NO_SUFFIX, fails);
      FailedInAppend(done, cur, fails);
    }

    /** One tick of broadcastLoop: nothing once the context or Done is
        closed; otherwise generate the batch and broadcast it. */
    method Tick(ctxDone: bool, gen: Talker -> seq<byte>, fails: (ConnId, nat) -> bool)
      returns (ghost order: seq<ConnId>)
      modifies this
      ensures ctxDone || base.doneClosed ==>
                written == old(written) && clients == old(clients) && closed == old(closed)
      ensures !ctxDone && !base.doneClosed ==>
                var sent := Unbudgeted(order, Render(Plan(base.config.sentenceOptions), gen), NO_SUFFIX, fails);
                Enumerates(order, old(clients)) &&
                written == old(written) + sent &&
                clients == old(clients) - FailedIn(sent, fails) &&
                closed == old(closed) + FailedIn(sent, fails)
      ensures serving == old(serving)
    {
      order := [];
      if ctxDone || base.doneClosed {
        return;
      }
      var sentences := GenerateSentences(base.config.sentenceOptions, gen);
      order := Broadcast(sentences, fails);
    }

    /** Stop: close and remove every client, then close Done, which is not
        guarded, so a second Stop would panic. The HTTP server is left
        serving (only the context closes it); the result is nil. */
    method Stop() returns (st: Status)
      requires !base.doneClosed
      modifies this, base
      ensures base.doneClosed && clients == {} && closed == old(closed) + old(clients)
      ensures serving == old(serving) && written == old(written) && st == Ok
    {
      closed := closed + clients;
      clients := {};
      base.CloseDone();
      st := Ok;
    }
  }

  /** websocket_test.go, connection tracking: three upgrades give three
      clients; one reader exit leaves two. */
  method ConnectionCount() returns (before: nat, after: nat)
    ensures before == 3 && after == 2
  {
    var cfg := Config("localhost", 0, 1_000_000_000, SentenceOptions(true, true, true), 4800, "nmea0183");
    var s := new WebSocketServer(cfg);
    s.Register(Some(1));
    s.Register(Some(2));
    s.Register(Some(3));
    before := |s.clients|;
    s.Disconnect(2);
    assert s.clients == {1, 3};
    after := |s.clients|;
  }

  /** A client whose sends all succeed receives every sentence of the batch,
      in order and unchanged; a client whose send k failed received sentences
      0 to k and then nothing. */
  lemma ClientReceives(order: seq<ConnId>, clients: set<ConnId>, sentences: seq<seq<byte>>,
      fails: (ConnId, nat) -> bool, c: ConnId)
    requires Enumerates(order, clients) && c in clients
    ensures var got := Project(Unbudgeted(order, sentences, NO_SUFFIX, fails), c);
            got == Run(c, sentences, NO_SUFFIX, fails, 0) &&
            |got| <= |sentences| &&
            (forall j :: 0 <= j < |got| ==> got[j].data == sentences[j]) &&
            ((forall j :: 0 <= j < |sentences| ==> !fails(c, j)) ==> |got| == |sentences|)
  {
    ProjectUnbudgeted(order, sentences, NO_SUFFIX, fails, c);
    RunMeaning(c, sentences, NO_SUFFIX, fails, 0);
    var got := Project(Unbudgeted(order, sentences, NO_SUFFIX, fails), c);
    forall j | 0 <= j < |got|
      ensures got[j].data == sentences[j]
    {
      assert sentences[j] + NO_SUFFIX == sentences[j];
    }
    if forall j :: 0 <= j < |sentences| ==> !fails(c, j) {
      RunAllSucceed(c, sentences, NO_SUFFIX, fails);
    }
  }
}
