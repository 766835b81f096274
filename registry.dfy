/** The client registry every server keeps (a Go map used as a set of
    connections) and what one pass over it writes. Go ranges over a map in an
    order it does not promise; the model names that order (`Enumerates`) and
    states every result for whichever order was taken. Whether a write fails
    is not something the program decides: it is the parameter `fails`. */
module Registry {
  import opened Bytes

  /** A connection, by identity. */
  type ConnId = nat

  /** One write: to which connection, the index of the sentence within the
      tick's batch (0 for a single frame), and the bytes. */
  datatype Attempt = Attempt(conn: ConnId, index: nat, data: seq<byte>)

  predicate Distinct(order: seq<ConnId>)
  {
    forall i, j :: 0 <= i < j < |order| ==> order[i] != order[j]
  }

  /** `order` visits every member of s exactly once. */
  predicate Enumerates(order: seq<ConnId>, s: set<ConnId>)
  {
    Distinct(order) && (forall c :: c in order ==> c in s) && (forall c :: c in s ==> c in order)
  }

  /** Some order of a set. */
  ghost function Enumerate(s: set<ConnId>): (order: seq<ConnId>)
    ensures Enumerates(order, s)
    decreases s
  {
    if s == {} then []
    else
      var c :| c in s;
      var rest := Enumerate(s - {c});
      assert forall i :: 0 <= i < |rest| ==> rest[i] != c;
      [c] + rest
  }

  /** Visiting one more, new, member. */
  lemma EnumeratesSnoc(order: seq<ConnId>, s: set<ConnId>, c: ConnId)
    requires Enumerates(order, s) && c !in s
    ensures Enumerates(order + [c], s + {c})
  {
    assert forall i :: 0 <= i < |order| ==> (order + [c])[i] == order[i];
  }

  /** What one client receives during a broadcast of `sentences`, from
      sentence k on: each sentence followed by `suffix`, up to and including
      the first write that fails. */
  function Run(c: ConnId, sentences: seq<seq<byte>>, suffix: seq<byte>, fails: (ConnId, nat) -> bool, k: nat): seq<Attempt>
    requires k <= |sentences|
    decreases |sentences| - k
  {
    if k == |sentences| then []
    else
      var rest := if fails(c, k) then [] else Run(c, sentences, suffix, fails, k + 1);
      [Attempt(c, k, sentences[k] + suffix)] + rest
  }

  /** A run holds the sentences k, k+1, ... in order, each once; every write
      but the last succeeded; it stops short of the end only at a failure. */
  lemma RunMeaning(c: ConnId, sentences: seq<seq<byte>>, suffix: seq<byte>, fails: (ConnId, nat) -> bool, k: nat)
    requires k <= |sentences|
    ensures var r := Run(c, sentences, suffix, fails, k);
            k + |r| <= |sentences| &&
            (k < |sentences| ==> |r| >= 1) &&
            (forall j :: 0 <= j < |r| ==> r[j] == Attempt(c, k + j, sentences[k + j] + suffix)) &&
            (forall j :: k <= j < k + |r| - 1 ==> !fails(c, j)) &&
            (k + |r| < |sentences| ==> fails(c, k + |r| - 1))
  {
    RunWrites(c, sentences, suffix, fails, k);
    RunStops(c, sentences, suffix, fails, k);
  }

  lemma {:induction false} RunWrites(c: ConnId, sentences: seq<seq<byte>>, suffix: seq<byte>, fails: (ConnId, nat) -> bool, k: nat)
    requires k <= |sentences|
    ensures var r := Run(c, sentences, suffix, fails, k);
            k + |r| <= |sentences| && (k < |sentences| ==> |r| >= 1) &&
            forall j :: 0 <= j < |r| ==> r[j] == Attempt(c, k + j, sentences[k + j] + suffix)
    decreases |sentences| - k
  {
    if k < |sentences| && !fails(c, k) {
      RunWrites(c, sentences, suffix, fails, k + 1);
      var r' := Run(c, sentences, suffix, fails, k + 1);
      assert Run(c, sentences, suffix, fails, k) == [Attempt(c, k, sentences[k] + suffix)] + r';
    }
  }

  lemma {:induction false} RunStops(c: ConnId, sentences: seq<seq<byte>>, suffix: seq<byte>, fails: (ConnId, nat) -> bool, k: nat)
    requires k <= |sentences|
    ensures var r := Run(c, sentences, suffix, fails, k);
            (forall j :: k <= j < k + |r| - 1 ==> !fails(c, j)) &&
            (k + |r| < |sentences| ==> k < k + |r| && fails(c, k + |r| - 1))
    decreases |sentences| - k
  {
    if k < |sentences| && !fails(c, k) {
      RunStops(c, sentences, suffix, fails, k + 1);
      var r' := Run(c, sentences, suffix, fails, k + 1);
      assert |Run(c, sentences, suffix, fails, k)| == 1 + |r'|;
    }
  }

  /** A client none of whose writes fails receives every sentence. */
  lemma RunAllSucceed(c: ConnId, sentences: seq<seq<byte>>, suffix: seq<byte>, fails: (ConnId, nat) -> bool)
    requires forall j :: 0 <= j < |sentences| ==> !fails(c, j)
    ensures Run(c, sentences, suffix, fails, 0) ==
            seq(|sentences|, j requires 0 <= j < |sentences| => Attempt(c, j, sentences[j] + suffix))
  {
    RunMeaning(c, sentences, suffix, fails, 0);
  }

  /** Every write of a broadcast with no byte budget: the runs of the clients,
      one after another in the order visited. */
  function Unbudgeted(order: seq<ConnId>, sentences: seq<seq<byte>>, suffix: seq<byte>, fails: (ConnId, nat) -> bool): seq<Attempt>
  {
    if order == [] then []
    else Run(order[0], sentences, suffix, fails, 0) + Unbudgeted(order[1..], sentences, suffix, fails)
  }

  /** The writes made before the running byte total reaches the budget: a
      write is made only while the total is below it, and counts its bytes
      once made. */
  function Cut(a: seq<Attempt>, budget: int, total: int): seq<Attempt>
  {
    if a == [] || total >= budget then []
    else [a[0]] + Cut(a[1..], budget, total + |a[0].data|)
  }

  /** The number of bytes in a sequence of writes. */
  function SumLen(a: seq<Attempt>): nat
  {
    if a == [] then 0 else |a[0].data| + SumLen(a[1..])
  }

  /** What connection c receives, in order. */
  function Project(a: seq<Attempt>, c: ConnId): seq<Attempt>
  {
    if a == [] then [] else (if a[0].conn == c then [a[0]] else []) + Project(a[1..], c)
  }

  /** The connections with a failed write among a. */
  function FailedIn(a: seq<Attempt>, fails: (ConnId, nat) -> bool): set<ConnId>
  {
    if a == [] then {}
    else (if fails(a[0].conn, a[0].index) then {a[0].conn} else {}) + FailedIn(a[1..], fails)
  }

  /** The members of s whose single write fails. */
  function Failing(s: set<ConnId>, fails: ConnId -> bool): set<ConnId>
  {
    set c | c in s && fails(c)
  }

  /** One frame to every connection visited, in order. */
  function Fanout(order: seq<ConnId>, data: seq<byte>): seq<Attempt>
  {
    if order == [] then [] else [Attempt(order[0], 0, data)] + Fanout(order[1..], data)
  }

  lemma {:induction false} FailedInAppend(a: seq<Attempt>, b: seq<Attempt>, fails: (ConnId, nat) -> bool)
    ensures FailedIn(a + b, fails) == FailedIn(a, fails) + FailedIn(b, fails)
  {
    if a != [] {
      assert (a + b)[0] == a[0] && (a + b)[1..] == a[1..] + b;
      FailedInAppend(a[1..], b, fails);
    } else {
      assert a + b == b;
    }
  }

  /** The cut is a prefix of the writes it was taken from. */
  lemma {:induction false} CutIsPrefix(a: seq<Attempt>, budget: int, total: int)
    ensures |Cut(a, budget, total)| <= |a|
    ensures Cut(a, budget, total) == a[..|Cut(a, budget, total)|]
  {
    if a != [] && total < budget {
      CutIsPrefix(a[1..], budget, total + |a[0].data|);
      assert a == [a[0]] + a[1..];
    }
  }

  /** Every write of the cut was made while the running total, counted from
      `total`, was below the budget. */
  lemma {:induction false} CutUnderBudget(a: seq<Attempt>, budget: int, total: int)
    ensures forall n :: 0 <= n < |Cut(a, budget, total)| ==>
              total + SumLen(Cut(a, budget, total)[..n]) < budget
  {
    if a != [] && total < budget {
      var t := Cut(a[1..], budget, total + |a[0].data|);
      CutUnderBudget(a[1..], budget, total + |a[0].data|);
      forall n | 1 <= n < |Cut(a, budget, total)|
        ensures total + SumLen(Cut(a, budget, total)[..n]) < budget
      {
        assert Cut(a, budget, total)[..n] == [a[0]] + t[..n - 1];
      }
      assert Cut(a, budget, total)[..0] == [];
    }
  }

  /** The cut stops short only once the total has reached the budget. */
  lemma {:induction false} CutStopsAtBudget(a: seq<Attempt>, budget: int, total: int)
    requires |Cut(a, budget, total)| < |a|
    ensures total + SumLen(Cut(a, budget, total)) >= budget
  {
    if total < budget {
      CutStopsAtBudget(a[1..], budget, total + |a[0].data|);
    }
  }

  /** The cut overshoots the budget by less than one write. */
  lemma {:induction false} CutOvershoot(a: seq<Attempt>, budget: int, total: int, longest: nat)
    requires forall i :: 0 <= i < |a| ==> |a[i].data| <= longest
    ensures Cut(a, budget, total) != [] ==> total + SumLen(Cut(a, budget, total)) < budget + longest
  {
    if a != [] && total < budget {
      assert forall i :: 0 <= i < |a[1..]| ==> a[1..][i] == a[i + 1];
      CutOvershoot(a[1..], budget, total + |a[0].data|, longest);
    }
  }

  /** With no budget left nothing is written. */
  lemma NoBudgetNoWrites(a: seq<Attempt>, budget: int, total: int)
    requires total >= budget
    ensures Cut(a, budget, total) == []
  {
  }

  lemma {:induction false} ProjectAppend(a: seq<Attempt>, b: seq<Attempt>, c: ConnId)
    ensures Project(a + b, c) == Project(a, c) + Project(b, c)
  {
    if a != [] {
      assert (a + b)[0] == a[0] && (a + b)[1..] == a[1..] + b;
      ProjectAppend(a[1..], b, c);
    } else {
      assert a + b == b;
    }
  }

  /** What c receives from a prefix is a prefix of what it receives. */
  lemma {:induction false} ProjectOfPrefix(a: seq<Attempt>, n: nat, c: ConnId)
    requires n <= |a|
    ensures |Project(a[..n], c)| <= |Project(a, c)|
    ensures Project(a[..n], c) == Project(a, c)[..|Project(a[..n], c)|]
    decreases |a| - n
  {
    if n < |a| {
      ProjectOfPrefix(a, n + 1, c);
      assert a[..n + 1] == a[..n] + [a[n]];
      ProjectAppend(a[..n], [a[n]], c);
    } else {
      assert a[..n] == a;
    }
  }

  /** A run only writes to its own client. */
  lemma {:induction false} ProjectRun(d: ConnId, sentences: seq<seq<byte>>, suffix: seq<byte>, fails: (ConnId, nat) -> bool, k: nat, c: ConnId)
    requires k <= |sentences|
    ensures Project(Run(d, sentences, suffix, fails, k), c) ==
            if c == d then Run(d, sentences, suffix, fails, k) else []
    decreases |sentences| - k
  {
    if k < |sentences| {
      var x := Attempt(d, k, sentences[k] + suffix);
      var rest := if fails(d, k) then [] else Run(d, sentences, suffix, fails, k + 1);
      ProjectAppend([x], rest, c);
      assert [x][1..] == [];
      if !fails(d, k) {
        ProjectRun(d, sentences, suffix, fails, k + 1, c);
      }
    }
  }

  /** Each of the clients visited receives exactly its own run; any other
      connection receives nothing. */
  lemma {:induction false} ProjectUnbudgeted(order: seq<ConnId>, sentences: seq<seq<byte>>, suffix: seq<byte>, fails: (ConnId, nat) -> bool, c: ConnId)
    requires Distinct(order)
    ensures Project(Unbudgeted(order, sentences, suffix, fails), c) ==
            if c in order then Run(c, sentences, suffix, fails, 0) else []
  {
    if order != [] {
      var d := order[0];
      assert Distinct(order[1..]) by {
        assert forall i :: 0 <= i < |order[1..]| ==> order[1..][i] == order[i + 1];
      }
      ProjectAppend(Run(d, sentences, suffix, fails, 0), Unbudgeted(order[1..], sentences, suffix, fails), c);
      ProjectRun(d, sentences, suffix, fails, 0, c);
      ProjectUnbudgeted(order[1..], sentences, suffix, fails, c);
      assert c in order <==> c == d || c in order[1..] by {
        assert order == [d] + order[1..];
      }
      if c == d {
        assert forall i :: 0 <= i < |order[1..]| ==> order[1..][i] == order[i + 1];
        assert c !in order[1..];
      }
    }
  }

  /** Under a budget, what each client receives is a prefix of its run: the
      first sentences of the batch, in the order generated, and nothing after
      a failed write. A connection not visited receives nothing. */
  lemma ClientGetsPrefixOfRun(order: seq<ConnId>, sentences: seq<seq<byte>>, suffix: seq<byte>, fails: (ConnId, nat) -> bool, budget: int, c: ConnId)
    requires Distinct(order)
    ensures var p := Project(Cut(Unbudgeted(order, sentences, suffix, fails), budget, 0), c);
            var r := Run(c, sentences, suffix, fails, 0);
            (c in order ==> |p| <= |r| && p == r[..|p|]) && (c !in order ==> p == [])
  {
    var a := Unbudgeted(order, sentences, suffix, fails);
    CutIsPrefix(a, budget, 0);
    ProjectOfPrefix(a, |Cut(a, budget, 0)|, c);
    ProjectUnbudgeted(order, sentences, suffix, fails, c);
  }

  lemma {:induction false} RunConns(d: ConnId, sentences: seq<seq<byte>>, suffix: seq<byte>, fails: (ConnId, nat) -> bool, k: nat)
    requires k <= |sentences|
    ensures forall x :: x in Run(d, sentences, suffix, fails, k) ==> x.conn == d
    decreases |sentences| - k
  {
    if k < |sentences| && !fails(d, k) {
      RunConns(d, sentences, suffix, fails, k + 1);
    }
  }

  lemma {:induction false} UnbudgetedConns(order: seq<ConnId>, sentences: seq<seq<byte>>, suffix: seq<byte>, fails: (ConnId, nat) -> bool)
    ensures forall x :: x in Unbudgeted(order, sentences, suffix, fails) ==> x.conn in order
  {
    if order != [] {
      RunConns(order[0], sentences, suffix, fails, 0);
      UnbudgetedConns(order[1..], sentences, suffix, fails);
      assert forall c :: c in order[1..] ==> c in order;
    }
  }

  lemma {:induction false} FailedInConns(a: seq<Attempt>, fails: (ConnId, nat) -> bool)
    ensures forall c :: c in FailedIn(a, fails) ==> exists x :: x in a && x.conn == c
  {
    if a != [] {
      FailedInConns(a[1..], fails);
      assert forall x :: x in a[1..] ==> x in a;
    }
  }

  /** Only clients that were visited can be dropped by a broadcast. */
  lemma FailedAreVisited(order: seq<ConnId>, sentences: seq<seq<byte>>, suffix: seq<byte>, fails: (ConnId, nat) -> bool, budget: int)
    ensures forall c :: c in FailedIn(Cut(Unbudgeted(order, sentences, suffix, fails), budget, 0), fails) ==> c in order
  {
    var a := Unbudgeted(order, sentences, suffix, fails);
    var cut := Cut(a, budget, 0);
    CutIsPrefix(a, budget, 0);
    UnbudgetedConns(order, sentences, suffix, fails);
    FailedInConns(cut, fails);
    assert forall x :: x in cut ==> x in a;
  }

  /** A single frame reaches each visited connection exactly once. */
  lemma {:induction false} ProjectFanout(order: seq<ConnId>, data: seq<byte>, c: ConnId)
    requires Distinct(order)
    ensures Project(Fanout(order, data), c) == if c in order then [Attempt(c, 0, data)] else []
  {
    if order != [] {
      assert Distinct(order[1..]) by {
        assert forall i :: 0 <= i < |order[1..]| ==> order[1..][i] == order[i + 1];
      }
      ProjectFanout(order[1..], data, c);
      assert Fanout(order, data)[1..] == Fanout(order[1..], data);
      assert c in order <==> c == order[0] || c in order[1..] by {
        assert order == [order[0]] + order[1..];
      }
      if c == order[0] {
        assert forall i :: 0 <= i < |order[1..]| ==> order[1..][i] == order[i + 1];
      }
    }
  }

  /** Two orders of disjoint sets, one after the other, order the union. */
  lemma EnumeratesConcat(o1: seq<ConnId>, s1: set<ConnId>, o2: seq<ConnId>, s2: set<ConnId>)
    requires Enumerates(o1, s1) && Enumerates(o2, s2) && s1 !! s2
    ensures Enumerates(o1 + o2, s1 + s2)
  {
    var o := o1 + o2;
    forall i, j | 0 <= i < j < |o|
      ensures o[i] != o[j]
    {
      if j < |o1| {
        assert o[i] == o1[i] && o[j] == o1[j];
      } else if i >= |o1| {
        assert o[i] == o2[i - |o1|] && o[j] == o2[j - |o1|];
      } else {
        assert o[i] == o1[i] && o[j] == o2[j - |o1|];
        assert o[i] in s1 && o[j] in s2;
      }
    }
  }

  lemma {:induction false} UnbudgetedAppend(o1: seq<ConnId>, o2: seq<ConnId>, sentences: seq<seq<byte>>, suffix: seq<byte>, fails: (ConnId, nat) -> bool)
    ensures Unbudgeted(o1 + o2, sentences, suffix, fails) ==
            Unbudgeted(o1, sentences, suffix, fails) + Unbudgeted(o2, sentences, suffix, fails)
  {
    if o1 == [] {
      assert o1 + o2 == o2;
    } else {
      assert (o1 + o2)[0] == o1[0] && (o1 + o2)[1..] == o1[1..] + o2;
      UnbudgetedAppend(o1[1..], o2, sentences, suffix, fails);
    }
  }

  lemma UnbudgetedSingle(c: ConnId, sentences: seq<seq<byte>>, suffix: seq<byte>, fails: (ConnId, nat) -> bool)
    ensures Unbudgeted([c], sentences, suffix, fails) == Run(c, sentences, suffix, fails, 0)
  {
    assert [c][1..] == [];
  }

  lemma {:induction false} SumLenAppend(a: seq<Attempt>, b: seq<Attempt>)
    ensures SumLen(a + b) == SumLen(a) + SumLen(b)
  {
    if a == [] {
      assert a + b == b;
    } else {
      assert (a + b)[0] == a[0] && (a + b)[1..] == a[1..] + b;
      SumLenAppend(a[1..], b);
    }
  }

  /** Writes that all fit under the budget are kept whole, and the cut goes
      on with the rest from their total. */
  lemma {:induction false} CutAppendWhole(w: seq<Attempt>, rest: seq<Attempt>, budget: int, total: int)
    requires Cut(w, budget, total) == w
    ensures Cut(w + rest, budget, total) == w + Cut(rest, budget, total + SumLen(w))
  {
    if w == [] {
      assert w + rest == rest;
    } else {
      assert total < budget;
      assert (w + rest)[0] == w[0] && (w + rest)[1..] == w[1..] + rest;
      assert Cut(w[1..], budget, total + |w[0].data|) == w[1..];
      CutAppendWhole(w[1..], rest, budget, total + |w[0].data|);
    }
  }

  /** Cutting a concatenation: the cut of the first part, then the cut of
      the second from the total the first part's cut reached. */
  lemma {:induction false} CutAppend(a: seq<Attempt>, b: seq<Attempt>, budget: int, total: int)
    ensures Cut(a + b, budget, total) ==
            Cut(a, budget, total) + Cut(b, budget, total + SumLen(Cut(a, budget, total)))
  {
    if a == [] {
      assert a + b == b;
    } else if total < budget {
      assert (a + b)[0] == a[0] && (a + b)[1..] == a[1..] + b;
      CutAppend(a[1..], b, budget, total + |a[0].data|);
    }
  }

  /** One step of a run. */
  lemma RunStep(c: ConnId, sentences: seq<seq<byte>>, suffix: seq<byte>, fails: (ConnId, nat) -> bool, k: nat)
    requires k < |sentences|
    ensures Run(c, sentences, suffix, fails, k) == [Attempt(c, k, sentences[k] + suffix)] +
              (if fails(c, k) then [] else Run(c, sentences, suffix, fails, k + 1))
  {
  }

  lemma FailedInSingle(x: Attempt, fails: (ConnId, nat) -> bool)
    ensures FailedIn([x], fails) == if fails(x.conn, x.index) then {x.conn} else {}
  {
    assert [x][1..] == [];
  }

  /** The first k writes of a run in which none of them failed. */
  function Attempts(c: ConnId, sentences: seq<seq<byte>>, suffix: seq<byte>, k: nat): (r: seq<Attempt>)
    requires k <= |sentences|
    ensures |r| == k
  {
    seq(k, j requires 0 <= j < k => Attempt(c, j, sentences[j] + suffix))
  }

  lemma AttemptsSnoc(c: ConnId, sentences: seq<seq<byte>>, suffix: seq<byte>, k: nat)
    requires k < |sentences|
    ensures Attempts(c, sentences, suffix, k + 1) ==
            Attempts(c, sentences, suffix, k) + [Attempt(c, k, sentences[k] + suffix)]
  {
  }

  /** While no write has failed, a run is its first k writes followed by
      the run from k. */
  lemma {:induction false} RunFrom(c: ConnId, sentences: seq<seq<byte>>, suffix: seq<byte>, fails: (ConnId, nat) -> bool, k: nat)
    requires k <= |sentences|
    requires forall j :: 0 <= j < k ==> !fails(c, j)
    ensures Run(c, sentences, suffix, fails, 0) ==
            Attempts(c, sentences, suffix, k) + Run(c, sentences, suffix, fails, k)
  {
    if k == 0 {
      assert Attempts(c, sentences, suffix, 0) == [];
    } else {
      RunFrom(c, sentences, suffix, fails, k - 1);
      AttemptsSnoc(c, sentences, suffix, k - 1);
      RunStep(c, sentences, suffix, fails, k - 1);
      Regroup(Attempts(c, sentences, suffix, k - 1), Attempt(c, k - 1, sentences[k - 1] + suffix),
              Run(c, sentences, suffix, fails, k));
    }
  }

  lemma Regroup(a: seq<Attempt>, x: Attempt, rest: seq<Attempt>)
    ensures a + ([x] + rest) == (a + [x]) + rest
  {
  }

  /** The connections listed in a sequence. */
  function Members(s: seq<ConnId>): set<ConnId>
  {
    set c | c in s
  }

  lemma MembersSnoc(s: seq<ConnId>, i: nat)
    requires i < |s|
    ensures Members(s[..i + 1]) == Members(s[..i]) + {s[i]}
  {
    assert s[..i + 1] == s[..i] + [s[i]];
  }

  lemma FanoutSnoc(order: seq<ConnId>, c: ConnId, data: seq<byte>)
    ensures Fanout(order + [c], data) == Fanout(order, data) + [Attempt(c, 0, data)]
  {
    if order == [] {
      assert [] + [c] == [c];
    } else {
      assert (order + [c])[1..] == order[1..] + [c];
      FanoutSnoc(order[1..], c, data);
    }
  }

  /** The failing connections among those visited, after visiting c. */
  lemma FailingVisit(snapshot: set<ConnId>, pending: set<ConnId>, c: ConnId, fails: ConnId -> bool,
      failed: seq<ConnId>, failed': seq<ConnId>)
    requires c in pending && pending <= snapshot
    requires Members(failed) == Failing(snapshot - pending, fails)
    requires failed' == if fails(c) then failed + [c] else failed
    ensures Members(failed') == Failing(snapshot - (pending - {c}), fails)
  {
    assert Members(failed + [c]) == Members(failed) + {c};
  }

  /** The visited clients, now with c. */
  lemma EnumeratesVisit(order: seq<ConnId>, snapshot: set<ConnId>, pending: set<ConnId>, c: ConnId)
    requires pending <= snapshot && c in pending
    requires Enumerates(order, snapshot - pending)
    ensures Enumerates(order + [c], snapshot - (pending - {c}))
  {
    EnumeratesSnoc(order, snapshot - pending, c);
    assert snapshot - pending + {c} == snapshot - (pending - {c});
  }

  /** One more write, after writes none of which failed. */
  lemma FailedSnoc(cur: seq<Attempt>, x: Attempt, fails: (ConnId, nat) -> bool)
    requires FailedIn(cur, fails) == {}
    ensures FailedIn(cur + [x], fails) == (if fails(x.conn, x.index) then {x.conn} else {})
  {
    FailedInAppend(cur, [x], fails);
    FailedInSingle(x, fails);
  }

  /** A server's state after one more client, regrouped as the state after
      everything written so far. */
  lemma StateAlgebra(written0: seq<Attempt>, done: seq<Attempt>, cur: seq<Attempt>, w: seq<Attempt>,
      snapshot: set<ConnId>, closed0: set<ConnId>, x: set<ConnId>, y: set<ConnId>,
      cs: set<ConnId>, cl: set<ConnId>)
    requires w == (written0 + done) + cur && cs == (snapshot - x) - y && cl == (closed0 + x) + y
    ensures w == written0 + (done + cur) && cs == snapshot - (x + y) && cl == closed0 + (x + y)
  {
  }

  /** Dropping and closing one more connection. */
  lemma DropOne(snapshot: set<ConnId>, closed0: set<ConnId>, gone: set<ConnId>, c: ConnId,
      cs: set<ConnId>, cl: set<ConnId>)
    requires cs == snapshot - gone && cl == closed0 + gone
    ensures cs - {c} == snapshot - (gone + {c}) && cl + {c} == closed0 + (gone + {c})
  {
  }

  /** A run whose write k was the first to fail is its first k + 1 writes. */
  lemma RunEndsAtFailure(c: ConnId, sentences: seq<seq<byte>>, suffix: seq<byte>, fails: (ConnId, nat) -> bool, k: nat)
    requires k < |sentences| && fails(c, k) && forall j :: 0 <= j < k ==> !fails(c, j)
    ensures Run(c, sentences, suffix, fails, 0) == Attempts(c, sentences, suffix, k + 1)
  {
    RunFrom(c, sentences, suffix, fails, k);
    RunStep(c, sentences, suffix, fails, k);
    AttemptsSnoc(c, sentences, suffix, k);
    var x := Attempt(c, k, sentences[k] + suffix);
    assert [x] + [] == [x];
  }

  /** A run in which no write failed is every sentence. */
  lemma RunWhole(c: ConnId, sentences: seq<seq<byte>>, suffix: seq<byte>, fails: (ConnId, nat) -> bool)
    requires forall j :: 0 <= j < |sentences| ==> !fails(c, j)
    ensures Run(c, sentences, suffix, fails, 0) == Attempts(c, sentences, suffix, |sentences|)
  {
    RunFrom(c, sentences, suffix, fails, |sentences|);
    assert Attempts(c, sentences, suffix, |sentences|) + [] == Attempts(c, sentences, suffix, |sentences|);
  }
}
