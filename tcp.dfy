/** pkg/network/tcp.go: the NMEA 0183 TCP server. Each tick it generates the
    enabled sentences and writes them, each followed by CR LF, to every client,
    stopping the whole tick once the bytes written reach what the baud rate
    allows per interval, and dropping a client whose write fails. */
module NetworkTcp {
  import opened Bytes
  import opened Network
  import opened Registry
  import opened Sentences

  const CRLF: seq<byte> := [CR, LF]

  /** Nanoseconds per second times bits per byte. */
  const NS_BITS: nat := 8_000_000_000

  /** bytesPerInterval: baud times the interval in seconds, over 8 bits per
      byte, truncated toward zero by the conversion to int. */
  function BytesPerInterval(baudRate: int, intervalNs: int): (r: int)
    ensures baudRate * intervalNs >= 0 ==>
              r >= 0 && NS_BITS * r <= baudRate * intervalNs < NS_BITS * (r + 1)
    ensures baudRate * intervalNs < 0 ==>
              r <= 0 && NS_BITS * (r - 1) < baudRate * intervalNs <= NS_BITS * r
  {
    var p := baudRate * intervalNs;
    if p >= 0 then p / NS_BITS else -((-p) / NS_BITS)
  }

  /** At 4800 baud and the default one-second interval a tick may start
      writes until 600 bytes have gone out. */
  lemma DefaultBudget()
    ensures BytesPerInterval(4800, 1_000_000_000) == 600
  {
  }

  class TcpServer {
    const base: BaseServer
    /** The listener is open. */
    var listening: bool
    /** The registry. */
    var clients: set<ConnId>
    /** Every write made to a client, in order. */
    var written: seq<Attempt>
    /** Connections the server has closed. */
    var closed: set<ConnId>

    /** NewTCPServer. */
    constructor (cfg: Config)
      ensures fresh(base) && base.config == cfg && !base.doneClosed
      ensures !listening && clients == {} && written == [] && closed == {}
    {
      base := new BaseServer(cfg);
      listening := false;
      clients := {};
      written := [];
      closed := {};
    }

    /** Start: listen on host:port; on failure return the error. Otherwise
        the accept and broadcast loops run (Accept, Tick) and Start waits for
        the context; what it then returns is Stop's result. */
    method Start(listenOk: bool) returns (r: StartResult)
      modifies this
      ensures r == (if listenOk then Serving else Failed)
      ensures listening == (old(listening) || listenOk)
      ensures clients == old(clients) && written == old(written) && closed == old(closed)
    {
      if !listenOk {
        return Failed;
      }
      listening := true;
      r := Serving;
    }

    /** One round of acceptLoop: once the context or Done is closed the loop
        has ended; otherwise an accepted connection joins the registry. The
        loop exists only once a listen has succeeded. */
    method Accept(ctxDone: bool, conn: Option<ConnId>)
      requires listening || base.doneClosed
      modifies this
      ensures clients == if !ctxDone && !base.doneClosed && conn.Some?
                         then old(clients) + {conn.value} else old(clients)
      ensures listening == old(listening) && written == old(written) && closed == old(closed)
    {
      if ctxDone || base.doneClosed {
        return;
      }
      if conn.Some? {
        clients := clients + {conn.value};
      }
    }

    /** broadcast: every client in some order, each sentence plus CR LF,
        returning as soon as the running total reaches the budget, and
        closing and dropping a client at its first failed write. */
    method Broadcast(sentences: seq<seq<byte>>, budget: int, fails: (ConnId, nat) -> bool)
      returns (ghost order: seq<ConnId>)
      modifies this
      ensures Enumerates(order, old(clients))
      ensures written == old(written) + Cut(Unbudgeted(order, sentences, CRLF, fails), budget, 0)
      ensures clients == old(clients) - FailedIn(Cut(Unbudgeted(order, sentences, CRLF, fails), budget, 0), fails)
      ensures closed == old(closed) + FailedIn(Cut(Unbudgeted(order, sentences, CRLF, fails), budget, 0), fails)
      ensures listening == old(listening)
    {
      ghost var snapshot := clients;
      ghost var done: seq<Attempt> := [];
      order := [];
      var pending := clients;
      var totalBytes := 0;
      while pending != {}
        invariant pending <= snapshot
        invariant Enumerates(order, snapshot - pending)
        invariant done == Cut(Unbudgeted(order, sentences, CRLF, fails), budget, 0)
        invariant totalBytes == SumLen(done)
        invariant written == old(written) + done
        invariant clients == snapshot - FailedIn(done, fails)
        invariant closed == old(closed) + FailedIn(done, fails)
        invariant listening == old(listening)
        decreases pending
      {
        var c :| c in pending;
        var stop;
        totalBytes, stop, done := VisitClient(c, sentences, budget, fails, totalBytes,
                                              order, snapshot, done, old(written), old(closed));
        EnumeratesVisit(order, snapshot, pending, c);
        order := order + [c];
        pending := pending - {c};
        if stop {
          ghost var others := Enumerate(pending);
          OrderCompleted(order, snapshot, pending, others);
          BudgetSpent(order, others, sentences, fails, budget, done);
          order := order + others;
          return;
        }
      }
      assert snapshot - pending == snapshot;
    }

    /** One pass of broadcast's outer loop: c's run, and the loop's
        invariant carried from the clients before c to those up to c. */
    method VisitClient(c: ConnId, sentences: seq<seq<byte>>, budget: int, fails: (ConnId, nat) -> bool,
        totalBytes: int, ghost order: seq<ConnId>, ghost snapshot: set<ConnId>,
        ghost done: seq<Attempt>, ghost written0: seq<Attempt>, ghost closed0: set<ConnId>)
      returns (newTotal: int, stop: bool, ghost done': seq<Attempt>)
      requires done == Cut(Unbudgeted(order, sentences, CRLF, fails), budget, 0) && totalBytes == SumLen(done)
      requires written == written0 + done
      requires clients == snapshot - FailedIn(done, fails) && closed == closed0 + FailedIn(done, fails)
      modifies this
      ensures done' == Cut(Unbudgeted(order + [c], sentences, CRLF, fails), budget, 0) && newTotal == SumLen(done')
      ensures stop ==> newTotal >= budget
      ensures written == written0 + done'
      ensures clients == snapshot - FailedIn(done', fails) && closed == closed0 + FailedIn(done', fails)
      ensures listening == old(listening)
    {
      ghost var cur;
      newTotal, stop, cur := WriteRun(c, sentences, budget, fails, totalBytes);
      VisitedOneMore(order, c, sentences, fails, budget, done, cur);
      StateAlgebra(written0, done, cur, written, snapshot, closed0, FailedIn(done, fails),
                   FailedIn(cur, fails), clients, closed);
      done' := done + cur;
    }

    /** The inner loop of broadcast, for client c: each sentence plus CR LF
        while the running total is below the budget, up to the first failed
        write, which closes and drops c. `stop` is the early return that ends
        the whole broadcast. */
    method WriteRun(c: ConnId, sentences: seq<seq<byte>>, budget: int, fails: (ConnId, nat) -> bool, totalBytes: int)
      returns (newTotal: int, stop: bool, ghost cur: seq<Attempt>)
      modifies this
      ensures cur == Cut(Run(c, sentences, CRLF, fails, 0), budget, totalBytes)
      ensures newTotal == totalBytes + SumLen(cur) && (stop ==> newTotal >= budget)
      ensures written == old(written) + cur
      ensures clients == old(clients) - FailedIn(cur, fails)
      ensures closed == old(closed) + FailedIn(cur, fails)
      ensures listening == old(listening)
    {
      cur := [];
      newTotal := totalBytes;
      stop := false;
      var k := 0;
      while k < |sentences|
        invariant 0 <= k <= |sentences|
        invariant cur == Attempts(c, sentences, CRLF, k) && forall j :: 0 <= j < k ==> !fails(c, j)
        invariant Cut(cur, budget, totalBytes) == cur && newTotal == totalBytes + SumLen(cur)
        invariant written == old(written) + cur && FailedIn(cur, fails) == {}
        invariant clients == old(clients) && closed == old(closed) && listening == old(listening)
      {
        if newTotal >= budget {
          RunCutShort(c, sentences, fails, k, budget, totalBytes);
          return newTotal, true, cur;
        }
        var data := sentences[k] + CRLF;
        var x := Attempt(c, k, data);
        AddWrite(cur, x, budget, totalBytes);
        FailedSnoc(cur, x, fails);
        AttemptsSnoc(c, sentences, CRLF, k);
        newTotal := newTotal + |data|;
        written := written + [x];
        cur := cur + [x];
        if fails(c, k) {
          RunCutFailed(c, sentences, fails, k, budget, totalBytes);
          closed := closed + {c};
          clients := clients - {c};
          return;
        }
        k := k + 1;
      }
      RunCutWhole(c, sentences, fails, budget, totalBytes);
    }

    /** The budget ran out at sentence k: the writes so far are the cut run. */
    static lemma RunCutShort(c: ConnId, sentences: seq<seq<byte>>, fails: (ConnId, nat) -> bool, k: nat,
        budget: int, total: int)
      requires k <= |sentences| && forall j :: 0 <= j < k ==> !fails(c, j)
      requires var a := Attempts(c, sentences, CRLF, k);
               Cut(a, budget, total) == a && total + SumLen(a) >= budget
      ensures Attempts(c, sentences, CRLF, k) == Cut(Run(c, sentences, CRLF, fails, 0), budget, total)
    {
      var a := Attempts(c, sentences, CRLF, k);
      RunFrom(c, sentences, CRLF, fails, k);
      CutAppend(a, Run(c, sentences, CRLF, fails, k), budget, total);
      NoBudgetNoWrites(Run(c, sentences, CRLF, fails, k), budget, total + SumLen(a));
      assert a + [] == a;
    }

    /** The write of sentence k failed: the run ends with it. */
    static lemma RunCutFailed(c: ConnId, sentences: seq<seq<byte>>, fails: (ConnId, nat) -> bool, k: nat,
        budget: int, total: int)
      requires k < |sentences| && fails(c, k) && forall j :: 0 <= j < k ==> !fails(c, j)
      requires var a := Attempts(c, sentences, CRLF, k + 1); Cut(a, budget, total) == a
      ensures Attempts(c, sentences, CRLF, k + 1) == Cut(Run(c, sentences, CRLF, fails, 0), budget, total)
    {
      RunEndsAtFailure(c, sentences, CRLF, fails, k);
    }

    /** No write failed: the whole batch went to c. */
    static lemma RunCutWhole(c: ConnId, sentences: seq<seq<byte>>, fails: (ConnId, nat) -> bool,
        budget: int, total: int)
      requires forall j :: 0 <= j < |sentences| ==> !fails(c, j)
      requires var a := Attempts(c, sentences, CRLF, |sentences|); Cut(a, budget, total) == a
      ensures Attempts(c, sentences, CRLF, |sentences|) == Cut(Run(c, sentences, CRLF, fails, 0), budget, total)
    {
      RunWhole(c, sentences, CRLF, fails);
    }

    /** A write made while the total is below the budget is kept. */
    static lemma AddWrite(w: seq<Attempt>, x: Attempt, budget: int, total: int)
      requires Cut(w, budget, total) == w && total + SumLen(w) < budget
      ensures Cut(w + [x], budget, total) == w + [x] && SumLen(w + [x]) == SumLen(w) + |x.data|
    {
      CutAppendWhole(w, [x], budget, total);
      SumLenAppend(w, [x]);
      assert [x][1..] == [];
    }

    /** Visiting c after `order` extends the cut by c's cut run. */
    static lemma VisitedOneMore(order: seq<ConnId>, c: ConnId, sentences: seq<seq<byte>>,
        fails: (ConnId, nat) -> bool, budget: int, done: seq<Attempt>, cur: seq<Attempt>)
      requires done == Cut(Unbudgeted(order, sentences, CRLF, fails), budget, 0)
      requires cur == Cut(Run(c, sentences, CRLF, fails, 0), budget, SumLen(done))
      ensures done + cur == Cut(Unbudgeted(order + [c], sentences, CRLF, fails), budget, 0)
      ensures SumLen(done + cur) == SumLen(done) + SumLen(cur)
      ensures FailedIn(done + cur, fails) == FailedIn(done, fails) + FailedIn(cur, fails)
    {
      UnbudgetedAppend(order, [c], sentences, CRLF, fails);
      UnbudgetedSingle(c, sentences, CRLF, fails);
      CutAppend(Unbudgeted(order, sentences, CRLF, fails), Run(c, sentences, CRLF, fails, 0), budget, 0);
      SumLenAppend(done, cur);
      FailedInAppend(done, cur, fails);
    }

    /** Once the budget is spent, the clients not yet visited get nothing. */
    static lemma BudgetSpent(order: seq<ConnId>, others: seq<ConnId>, sentences: seq<seq<byte>>,
        fails: (ConnId, nat) -> bool, budget: int, done: seq<Attempt>)
      requires done == Cut(Unbudgeted(order, sentences, CRLF, fails), budget, 0) && SumLen(done) >= budget
      ensures Cut(Unbudgeted(order + others, sentences, CRLF, fails), budget, 0) == done
    {
      UnbudgetedAppend(order, others, sentences, CRLF, fails);
      CutAppend(Unbudgeted(order, sentences, CRLF, fails), Unbudgeted(others, sentences, CRLF, fails), budget, 0);
      NoBudgetNoWrites(Unbudgeted(others, sentences, CRLF, fails), budget, SumLen(done));
      assert done + [] == done;
    }

    /** The visited clients, then the rest, order the snapshot. */
    static lemma OrderCompleted(order: seq<ConnId>, snapshot: set<ConnId>, pending: set<ConnId>, others: seq<ConnId>)
      requires pending <= snapshot
      requires Enumerates(order, snapshot - pending) && Enumerates(others, pending)
      ensures Enumerates(order + others, snapshot)
    {
      EnumeratesConcat(order, snapshot - pending, others, pending);
      assert snapshot - pending + pending == snapshot;
    }

    /** One tick of broadcastLoop: nothing once the context or Done is
        closed; otherwise generate the batch and broadcast it under the
        baud-rate budget. */
    method Tick(ctxDone: bool, gen: Talker -> seq<byte>, fails: (ConnId, nat) -> bool)
      returns (ghost order: seq<ConnId>)
      modifies this
      ensures ctxDone || base.doneClosed ==>
                written == old(written) && clients == old(clients) && closed == old(closed)
      ensures !ctxDone && !base.doneClosed ==>
                var batch := Render(Plan(base.config.sentenceOptions), gen);
                var cut := Cut(Unbudgeted(order, batch, CRLF, fails),
                               BytesPerInterval(base.config.baudRate, base.config.updateInterval), 0);
                Enumerates(order, old(clients)) &&
                written == old(written) + cut &&
                clients == old(clients) - FailedIn(cut, fails) &&
                closed == old(closed) + FailedIn(cut, fails)
      ensures listening == old(listening)
    {
      order := [];
      if ctxDone || base.doneClosed {
        return;
      }
      var sentences := GenerateSentences(base.config.sentenceOptions, gen);
      order := Broadcast(sentences, BytesPerInterval(base.config.baudRate, base.config.updateInterval), fails);
    }

    /** Stop: a second call returns nil at once. The first closes Done, closes
        and drops every client, then closes the listener if there is one and
        returns that close's error. */
    method Stop(listenerCloseFails: bool) returns (st: Status)
      modifies this, base
      ensures old(base.doneClosed) ==>
                st == Ok && base.doneClosed && listening == old(listening) &&
                clients == old(clients) && closed == old(closed)
      ensures !old(base.doneClosed) ==>
                base.doneClosed && !listening && clients == {} &&
                closed == old(closed) + old(clients) &&
                st == (if old(listening) && listenerCloseFails then Err else Ok)
      ensures written == old(written)
    {
      if base.doneClosed {
        return Ok;
      }
      base.CloseDone();
      closed := closed + clients;
      clients := {};
      if listening {
        listening := false;
        return if listenerCloseFails then Err else Ok;
      }
      return Ok;
    }
  }
}
