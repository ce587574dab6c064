/** What the context bus guarantees on every run. */
module BusRuns {
  import opened Wrappers
  import opened Bus

  ghost predicate Run(r: seq<State>) {
    |r| > 0 && r[0] == Start && forall k :: 0 <= k < |r| - 1 ==> Follows(r[k], r[k + 1])
  }

  ghost predicate Follows(s: State, s': State) {
    Next(s, s')
  }

  lemma NextKeepsInv(s: State, s': State)
    requires Inv(s) && Next(s, s')
    ensures Inv(s')
  {
    hide Inv, OwnStep;
    if Accept(s, s') {
      AcceptKeeps(s, s');
    } else {
      var c :| OwnStep(s, c, s');
      StepKeeps(s, c, s');
    }
  }

  lemma {:induction false} RunKeepsInv(r: seq<State>, k: nat)
    requires Run(r) && k < |r|
    ensures Inv(r[k])
  {
    hide Next;
    if k > 0 {
      hide Inv;
      RunKeepsInv(r, k - 1);
      assert Follows(r[k - 1], r[k - 1 + 1]);
      NextKeepsInv(r[k - 1], r[k]);
    }
  }

  // ----- delivery

  /** What is on the wire to a connection. */
  predicate InOrder(s: State, d: ConnId, items: seq<Item>) {
    && (forall i :: 0 <= i < |items| && items[i].Event? ==>
          items[i].pub < |s.log| && d in s.log[items[i].pub].audience && d != s.log[items[i].pub].publisher)
    && (forall i, j :: 0 <= i < j < |items| && items[i].Event? && items[j].Event? ==> items[i].pub < items[j].pub)
  }

  /** Between `s` and `s'` the n-th publish got the lock: it is for exactly those subscribed to its
      topic at that moment, but for its publisher. */
  ghost predicate Published(s: State, s': State, n: nat, pub: Pub) {
    && n == |s.log| && s'.log == s.log + [pub]
    && s.lock.None? && pub.publisher in s.conns && s.conns[pub.publisher].phase == Publishing(pub.topic, pub.payload)
    && forall d :: d in pub.audience <==> (Subscribed(s.subs, pub.topic, d) && d != pub.publisher)
  }

  /** Between `s` and `s'` the n-th publish was offered to `d`, whose queue was full, or closed. */
  predicate Refused(s: State, s': State, n: nat, d: ConnId) {
    && Awaits(s, d, n) && d in s.conns && (|s.conns[d].queue| >= SUBSCRIBER_QUEUE_CAPACITY || !s.conns[d].open)
    && (n, d) in s'.dropped && (n, d) !in s.dropped
  }

  lemma LogGrows(s: State, s': State)
    requires Next(s, s')
    ensures s'.log == s.log || (|s'.log| == |s.log| + 1 && Published(s, s', |s.log|, s'.log[|s.log|]))
  {
    hide TrySend, NoSenders, ReadStep, SendStep, CloseStep, WriterStep;
    if s'.log != s.log {
      hide OwnStep;
      var c :| OwnStep(s, c, s');
      PublisherLogs(s, c, s');
    }
  }

  lemma OnlyLockedLogs(s: State, c: ConnId, s': State)
    requires OwnStep(s, c, s') && s'.log != s.log
    ensures c in s.conns && LockedStep(s, c, s')
  {
    hide TrySend, NoSenders, LockedStep;
  }

  lemma PublisherLogs(s: State, c: ConnId, s': State)
    requires OwnStep(s, c, s') && s'.log != s.log
    ensures |s'.log| == |s.log| + 1 && Published(s, s', |s.log|, s'.log[|s.log|])
  {
    hide OwnStep;
    OnlyLockedLogs(s, c, s');
  }

  /** An event is only ever refused by a queue that is full, or whose writer has ended. */
  lemma NewlyRefused(s: State, s': State, n: nat, d: ConnId)
    requires Inv(s) && Next(s, s') && (n, d) in s'.dropped && (n, d) !in s.dropped
    ensures Refused(s, s', n, d)
  {
    hide ConnsOk, LogOk, OwnStep;
    var c :| OwnStep(s, c, s');
    OffererRefuses(s, c, s', n, d);
  }

  lemma OffererRefuses(s: State, c: ConnId, s': State, n: nat, d: ConnId)
    requires SubsOk(s) && LockOk(s) && OwnStep(s, c, s') && (n, d) in s'.dropped && (n, d) !in s.dropped
    ensures Refused(s, s', n, d)
  {
    hide TrySend, NoSenders, ReadStep, LockedStep, CloseStep, WriterStep, OfferStep;
    StepsDropNothing(s, c, s');
    var e :| e in s.conns[c].phase.todo && OfferStep(s, c, e, s');
    OfferRefuses(s, c, e, s', n, d);
  }

  lemma StepsDropNothing(s: State, c: ConnId, s': State)
    requires OwnStep(s, c, s') && s'.dropped != s.dropped
    ensures SendStep(s, c, s') && s.conns[c].phase.todo != {}
  {
    hide TrySend, NoSenders, OfferStep;
  }

  lemma OfferRefuses(s: State, c: ConnId, e: ConnId, s': State, n: nat, d: ConnId)
    requires SubsOk(s) && LockOk(s) && c in s.conns && s.conns[c].phase.Sending? && OfferStep(s, c, e, s')
    requires (n, d) in s'.dropped && (n, d) !in s.dropped
    ensures Refused(s, s', n, d)
  {
    assert Subscribed(s.subs, s.log[s.conns[c].phase.pub].topic, e);
    hide TrySend;
  }

  lemma {:induction false} Origin(r: seq<State>, k: nat, n: nat)
    requires Run(r) && k < |r| && n < |r[k].log|
    ensures PublishedBefore(r, k, n, r[k].log[n])
  {
    hide Next, Published;
    if k > 0 {
      assert Follows(r[k - 1], r[k - 1 + 1]);
      LogGrows(r[k - 1], r[k]);
      if n < |r[k - 1].log| {
        Origin(r, k - 1, n);
        OldEntry(r[k - 1], r[k], n);
        var j :| 0 <= j < k - 1 && Published(r[j], r[j + 1], n, r[k - 1].log[n]);
        assert Published(r[j], r[j + 1], n, r[k].log[n]);
      } else {
        assert Published(r[k - 1], r[k - 1 + 1], n, r[k].log[n]);
      }
    }
  }

  lemma OldEntry(s: State, s': State, n: nat)
    requires n < |s.log| && (s'.log == s.log || (|s'.log| == |s.log| + 1 && Published(s, s', |s.log|, s'.log[|s.log|])))
    ensures s'.log[n] == s.log[n]
  {
  }

  lemma {:induction false} RefusalOrigin(r: seq<State>, k: nat, n: nat, d: ConnId)
    requires Run(r) && k < |r| && (n, d) in r[k].dropped
    ensures RefusedBefore(r, k, n, d)
  {
    hide Next, Refused;
    if k > 0 {
      assert Follows(r[k - 1], r[k - 1 + 1]);
      if (n, d) in r[k - 1].dropped {
        RefusalOrigin(r, k - 1, n, d);
      } else {
        RunKeepsInv(r, k - 1);
        hide Inv;
        NewlyRefused(r[k - 1], r[k], n, d);
        assert Refused(r[k - 1], r[k - 1 + 1], n, d);
      }
    }
  }

  /** Every publish so far got the lock at some step of the run. */
  ghost predicate AllPublished(r: seq<State>, k: nat)
    requires k < |r|
  {
    forall n :: 0 <= n < |r[k].log| ==> PublishedBefore(r, k, n, r[k].log[n])
  }

  ghost predicate PublishedBefore(r: seq<State>, k: nat, n: nat, pub: Pub)
    requires k < |r|
  {
    exists j :: 0 <= j < k && Published(r[j], r[j + 1], n, pub)
  }

  /** Every refusal so far was one of a full or closed queue at some step of the run. */
  ghost predicate AllRefused(r: seq<State>, k: nat, d: ConnId)
    requires k < |r|
  {
    forall n: nat :: (n, d) in r[k].dropped ==> RefusedBefore(r, k, n, d)
  }

  ghost predicate RefusedBefore(r: seq<State>, k: nat, n: nat, d: ConnId)
    requires k < |r|
  {
    exists j :: 0 <= j < k && Refused(r[j], r[j + 1], n, d)
  }

  lemma Origins(r: seq<State>, k: nat, d: ConnId)
    requires Run(r) && k < |r|
    ensures AllPublished(r, k) && AllRefused(r, k, d)
  {
    hide Published, Refused, Run;
    forall n | 0 <= n < |r[k].log| ensures PublishedBefore(r, k, n, r[k].log[n]) {
      Origin(r, k, n);
    }
    forall n: nat | (n, d) in r[k].dropped ensures RefusedBefore(r, k, n, d) {
      RefusalOrigin(r, k, n, d);
    }
  }

  /** At every moment of every run: each publish was for exactly those subscribed when it got the
      lock, but for its publisher. A connection has received events of such publishes, in their
      order, each at most once; its queue is within its limit; and every such event was taken by its
      queue, or refused by it when it was full or closed, or is still being offered, and only one of
      these. */
  lemma Delivery(r: seq<State>, k: nat, d: ConnId)
    requires Run(r) && k < |r| && d in r[k].conns
    ensures var s := r[k];
      var conn := s.conns[d];
      && AllPublished(r, k) && AllRefused(r, k, d)
      && InOrder(s, d, conn.written) && conn.written <= conn.accepted
      && |conn.queue| <= SUBSCRIBER_QUEUE_CAPACITY
      && (conn.open ==> conn.accepted == conn.written + conn.queue)
      && forall n :: 0 <= n < |s.log| && d in s.log[n].audience ==> AccountedFor(s, d, n)
  {
    Received(r, k, d);
    Origins(r, k, d);
    hide InOrder, AccountedFor, Run, AllPublished, AllRefused;
  }

  lemma Received(r: seq<State>, k: nat, d: ConnId)
    requires Run(r) && k < |r| && d in r[k].conns
    ensures var s := r[k];
      var conn := s.conns[d];
      && InOrder(s, d, conn.written) && conn.written <= conn.accepted
      && |conn.queue| <= SUBSCRIBER_QUEUE_CAPACITY
      && (conn.open ==> conn.accepted == conn.written + conn.queue)
      && forall n :: 0 <= n < |s.log| && d in s.log[n].audience ==> AccountedFor(s, d, n)
  {
    RunKeepsInv(r, k);
    var s := r[k];
    var conn := s.conns[d];
    assert QueueOk(conn) && EventsOk(s, d, conn.accepted);
    assert forall i :: 0 <= i < |conn.written| ==> conn.written[i] == conn.accepted[i];
    hide Awaits, SubsOk, LockOk, AccountedFor, Run;
  }

  // ----- disconnecting

  predicate Gone(s: State, c: ConnId) {
    c in s.conns && !Active(s.conns[c].phase)
  }

  /** Once it has left the map, nothing can be sent to a connection any more. */
  lemma NobodyCanSend(s: State, c: ConnId)
    requires Inv(s) && c in s.conns && !Active(s.conns[c].phase)
    ensures forall t :: !Subscribed(s.subs, t, c)
    ensures !s.conns[c].phase.Dropping? ==> NoSenders(s, c)
  {
    QueueOf(s, c);
    assert SubsOk(s);
    forall t, d | t in s.subs && d in s.subs[t] ensures s.subs[t][d] != c {
      assert Subscribed(s.subs, t, d);
    }
    hide LockOk, ConnsOk, LogOk;
  }

  /** How many steps a connection that has cleaned up is from having ended. */
  function Rank(conn: Conn): nat {
    (if conn.phase.Closed? then 0 else if conn.phase.Joining? then 1 else 2) + (if conn.open then 1 + |conn.queue| else 0)
  }

  /** Each step of its own brings such a connection closer to its end. */
  lemma OwnStepLowers(s: State, c: ConnId, s': State)
    requires Gone(s, c) && OwnStep(s, c, s')
    ensures Gone(s', c) && Rank(s'.conns[c]) < Rank(s.conns[c])
  {
    hide NoSenders, Forget, TrySend, Refusal;
  }

  /** No other connection's step changes it: nobody can send to it. */
  lemma OthersLeaveAlone(s: State, c: ConnId, s': State)
    requires Inv(s) && Gone(s, c) && Next(s, s') && !OwnStep(s, c, s')
    ensures c in s'.conns && s'.conns[c] == s.conns[c]
  {
    NobodyCanSend(s, c);
    if Accept(s, s') {
      NextIsNew(s);
    } else {
      assert SubsOk(s);
      hide Inv, OwnStep;
      var d :| OwnStep(s, d, s');
      OtherLeavesAlone(s, c, d, s');
    }
  }

  lemma OtherLeavesAlone(s: State, c: ConnId, d: ConnId, s': State)
    requires SubsOk(s) && Gone(s, c) && (forall t :: !Subscribed(s.subs, t, c)) && OwnStep(s, d, s') && d != c
    ensures c in s'.conns && s'.conns[c] == s.conns[c]
  {
    hide NoSenders, Forget, Subscribe, Unsubscribe, TrySend, Refusal, SubsOk, SendStep;
    if SendStep(s, d, s') {
      SenderLeavesAlone(s, c, d, s');
    }
  }

  lemma SenderLeavesAlone(s: State, c: ConnId, d: ConnId, s': State)
    requires SubsOk(s) && c in s.conns && d in s.conns && (forall t :: !Subscribed(s.subs, t, c)) && SendStep(s, d, s') && d != c
    ensures c in s'.conns && s'.conns[c] == s.conns[c]
  {
    hide TrySend, Refusal;
    if s.conns[d].phase.todo != {} {
      var e :| e in s.conns[d].phase.todo && OfferStep(s, d, e, s');
      assert Subscribed(s.subs, s.log[s.conns[d].phase.pub].topic, e);
    }
  }

  lemma NextIsNew(s: State)
    requires Inv(s)
    ensures s.next !in s.conns
  {
  }

  /** Until it is closed, there is a step of its own it can take. */
  lemma MayGoOn(s: State, c: ConnId)
    requires Inv(s) && Gone(s, c) && !s.conns[c].phase.Closed?
    ensures exists s' :: OwnStep(s, c, s')
  {
    NobodyCanSend(s, c);
    var conn := s.conns[c];
    var after :=
      if conn.phase.Dropping? then conn.(tx := false, phase := Joining)
      else if !conn.open then conn.(phase := Closed)
      else if conn.queue != [] then conn.(queue := conn.queue[1..], written := conn.written + [conn.queue[0]])
      else conn.(open := false);
    assert CloseStep(s, c, s.With(c, after)) || WriterStep(s, c, s.With(c, after));
    hide Inv, ReadStep, LockedStep, SendStep, CloseStep, WriterStep, NoSenders;
    assert OwnStep(s, c, s.With(c, after));
  }

  /** How many of the steps from `j` to `k` are steps of `c`. */
  ghost function OwnSteps(r: seq<State>, j: nat, k: nat, c: ConnId): nat
    requires j <= k < |r|
  {
    if j == k then 0 else OwnSteps(r, j, k - 1, c) + (if OwnStep(r[k - 1], c, r[k]) then 1 else 0)
  }

  lemma {:induction false} RankFalls(r: seq<State>, j: nat, k: nat, c: ConnId)
    requires Run(r) && j <= k < |r| && Gone(r[j], c)
    ensures Gone(r[k], c) && Rank(r[k].conns[c]) + OwnSteps(r, j, k, c) <= Rank(r[j].conns[c])
  {
    hide Next, OwnStep, Inv, Rank;
    if j < k {
      hide Gone;
      RankFalls(r, j, k - 1, c);
      RunKeepsInv(r, k - 1);
      assert Follows(r[k - 1], r[k - 1 + 1]);
      if OwnStep(r[k - 1], c, r[k]) {
        OwnStepLowers(r[k - 1], c, r[k]);
      } else {
        OthersLeaveAlone(r[k - 1], c, r[k]);
        StillGone(r[k - 1], r[k], c);
      }
    }
  }

  lemma RankBounded(s: State, c: ConnId)
    requires Inv(s) && c in s.conns
    ensures Rank(s.conns[c]) <= SUBSCRIBER_QUEUE_CAPACITY + 3
  {
    QueueOf(s, c);
  }

  /** However the tasks take turns, a connection that has cleaned up closes with its own next steps,
      of which there are no more than its rank, and 259 at most; and until then it can take one. */
  lemma Closes(r: seq<State>, j: nat, k: nat, c: ConnId)
    requires Run(r) && j <= k < |r| && Gone(r[j], c)
    ensures Gone(r[k], c) && Rank(r[k].conns[c]) + OwnSteps(r, j, k, c) <= Rank(r[j].conns[c]) <= SUBSCRIBER_QUEUE_CAPACITY + 3
    ensures OwnSteps(r, j, k, c) == Rank(r[j].conns[c]) ==> r[k].conns[c].phase.Closed?
    ensures r[k].conns[c].phase.Closed? || exists s' :: OwnStep(r[k], c, s')
  {
    RankFalls(r, j, k, c);
    RunKeepsInv(r, j);
    RunKeepsInv(r, k);
    hide Inv, OwnStep, Run;
    assert c in r[j].conns;
    RankBounded(r[j], c);
    if !r[k].conns[c].phase.Closed? { MayGoOn(r[k], c); }
  }

  lemma StillGone(s: State, s': State, c: ConnId)
    requires Gone(s, c) && c in s'.conns && s'.conns[c] == s.conns[c]
    ensures Gone(s', c)
  {
  }

  // ----- the lock

  lemma HolderSends(s: State)
    requires Inv(s) && s.lock.Some?
    ensures s.lock.value in s.conns && s.conns[s.lock.value].phase.Sending?
  {
    hide SubsOk, ConnsOk, LogOk;
  }

  /** How many the lock's holder still has to offer its event to. */
  function Todo(s: State): nat {
    if s.lock.Some? && s.lock.value in s.conns && s.conns[s.lock.value].phase.Sending? then |s.conns[s.lock.value].phase.todo| else 0
  }

  /** The holder can always take its next step: offering never waits. */
  lemma MaySend(s: State)
    requires Inv(s) && s.lock.Some?
    ensures s.lock.value in s.conns && exists s' :: SendStep(s, s.lock.value, s')
  {
    HolderSends(s);
    var c := s.lock.value;
    assert SubsOk(s) && LockOk(s);
    hide Inv, ConnsOk, LogOk, Refusal, TrySend;
    if s.conns[c].phase.todo == {} {
      assert SendStep(s, c, s.With(c, Acked(s.conns[c])).(lock := None));
    } else {
      var d :| d in s.conns[c].phase.todo;
      var k := s.conns[c].phase.pub;
      assert Subscribed(s.subs, s.log[k].topic, d);
      var s' := Offered(s, c, d, k, s.conns[c].phase.todo);
      assert OfferStep(s, c, d, s');
      assert SendStep(s, c, s');
    }
  }

  /** Each such step is one offer less to make, or gives the lock back. */
  lemma SendLowers(s: State, s': State)
    requires Inv(s) && s.lock.Some? && s.lock.value in s.conns && SendStep(s, s.lock.value, s')
    ensures if s.conns[s.lock.value].phase.todo == {} then s'.lock.None? else s'.lock == s.lock && Todo(s') < Todo(s)
  {
    hide SubsOk, ConnsOk, LogOk, Refusal, TrySend;
  }

  /** Any other step leaves the holder where it is. */
  lemma OthersLeaveHolder(s: State, s': State)
    requires Inv(s) && s.lock.Some? && s.lock.value in s.conns && Next(s, s') && !SendStep(s, s.lock.value, s')
    ensures s'.lock == s.lock && Todo(s') == Todo(s)
  {
    HolderSends(s);
    if Accept(s, s') {
      NextIsNew(s);
    } else {
      assert LockOk(s);
      hide Inv, OwnStep;
      var d :| OwnStep(s, d, s');
      hide LockOk;
      OtherLeavesHolder(s, d, s');
    }
  }

  lemma OtherLeavesHolder(s: State, d: ConnId, s': State)
    requires s.lock.Some? && s.lock.value in s.conns && s.conns[s.lock.value].phase.Sending?
    requires d in s.conns && OwnStep(s, d, s') && !SendStep(s, s.lock.value, s')
    requires s.conns[d].phase.Sending? ==> s.lock == Some(d)
    ensures s'.lock == s.lock && Todo(s') == Todo(s)
  {
    hide NoSenders, Forget, Subscribe, Unsubscribe, TrySend, Refusal, SendStep;
    assert !SendStep(s, d, s') by { OnlyHolderSends(s, d, s'); }
  }

  lemma OnlyHolderSends(s: State, d: ConnId, s': State)
    requires s.lock.Some? && d in s.conns && (s.conns[d].phase.Sending? ==> s.lock == Some(d))
    requires s.lock.value in s.conns && !SendStep(s, s.lock.value, s')
    ensures !SendStep(s, d, s')
  {
  }

  /** How many of the steps from `j` to `k` are the publishing task's of `c`. */
  ghost function Sends(r: seq<State>, j: nat, k: nat, c: ConnId): nat
    requires j <= k < |r|
  {
    if j == k then 0
    else Sends(r, j, k - 1, c) + (if c in r[k - 1].conns && SendStep(r[k - 1], c, r[k]) then 1 else 0)
  }

  /** However the tasks take turns, whoever holds the lock gives it back after no more of its own
      steps than it has offers to make, and one; and it can always take the next. */
  lemma {:induction false} LockIsReleased(r: seq<State>, j: nat, k: nat, c: ConnId)
    requires Run(r) && j <= k < |r| && forall i :: j <= i <= k ==> r[i].lock == Some(c)
    ensures c in r[k].conns && Todo(r[k]) + Sends(r, j, k, c) <= Todo(r[j])
    ensures exists s' :: SendStep(r[k], c, s')
  {
    hide Next, SendStep, Todo;
    RunKeepsInv(r, k);
    if j < k {
      hide Inv;
      LockIsReleased(r, j, k - 1, c);
      RunKeepsInv(r, k - 1);
      assert Follows(r[k - 1], r[k - 1 + 1]);
      if SendStep(r[k - 1], c, r[k]) {
        SendLowers(r[k - 1], r[k]);
      } else {
        OthersLeaveHolder(r[k - 1], r[k]);
      }
    }
    MaySend(r[k]);
  }

  /** Disconnecting never deadlocks: a connection whose stream has ended can go on whenever nobody
      holds the lock, and somebody who does can go on; once it has cleaned up it can always go on. */
  lemma Disconnects(r: seq<State>, k: nat, c: ConnId)
    requires Run(r) && k < |r| && c in r[k].conns && (r[k].conns[c].phase.Leaving? || Gone(r[k], c))
    ensures
      || r[k].conns[c].phase.Closed? || (exists s' :: OwnStep(r[k], c, s'))
      || (r[k].lock.Some? && r[k].lock.value in r[k].conns && exists s' :: SendStep(r[k], r[k].lock.value, s'))
  {
    RunKeepsInv(r, k);
    var s := r[k];
    hide Inv, Run, OwnStep, SendStep;
    if Gone(s, c) {
      if !s.conns[c].phase.Closed? { MayGoOn(s, c); }
    } else if s.lock.Some? {
      MaySend(s);
    } else {
      CleansUp(s, c);
    }
  }

  lemma CleansUp(s: State, c: ConnId)
    requires c in s.conns && s.conns[c].phase.Leaving? && s.lock.None?
    ensures exists s' :: OwnStep(s, c, s')
  {
    var s' := s.With(c, s.conns[c].(phase := Dropping)).(subs := Forget(s.subs, c));
    assert LockedStep(s, c, s');
    hide ReadStep, LockedStep, SendStep, CloseStep, WriterStep;
    assert OwnStep(s, c, s');
  }

  lemma GoneStays(s: State, s': State, c: ConnId)
    requires Inv(s) && Next(s, s') && Gone(s, c)
    ensures Gone(s', c)
  {
    hide Inv, OwnStep, Next, Rank;
    if OwnStep(s, c, s') {
      OwnStepLowers(s, c, s');
    } else {
      OthersLeaveAlone(s, c, s');
    }
  }

  /** Nothing leaks: from a connection's clean-up on, no topic ever has a sender of it again. */
  lemma {:induction false} LeavesNoSender(r: seq<State>, j: nat, k: nat, c: ConnId)
    requires Run(r) && j <= k < |r| && Gone(r[j], c)
    ensures Gone(r[k], c) && forall t :: !Subscribed(r[k].subs, t, c)
  {
    hide Next, Subscribed;
    if j < k {
      hide Inv, Gone;
      LeavesNoSender(r, j, k - 1, c);
      RunKeepsInv(r, k - 1);
      assert Follows(r[k - 1], r[k - 1 + 1]);
      GoneStays(r[k - 1], r[k], c);
    }
    RunKeepsInv(r, k);
    assert Gone(r[k], c);
    NobodyCanSend(r[k], c);
  }
}
