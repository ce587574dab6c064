/** The context bus: any number of connections publishing and subscribing to topics.

    A connection has a task that reads requests and one that writes its outgoing queue; all tasks
    take steps in any order. The subscriber map is guarded by one lock, which a publisher holds while
    it offers its event to one queue after another. */
module Bus {
  import opened Wrappers

  type ConnId = nat
  type Topic = string
  type Payload = seq<bv8>

  const SUBSCRIBER_QUEUE_CAPACITY := 256

  /** What a queue holds: an acknowledgement, or the event of a publish, by its number in the log. */
  datatype Item = Ack | Event(pub: nat)

  datatype Phase =
    | Reading
    | Subscribing(topic: Topic)
    | Unsubscribing(topic: Topic)
    | Publishing(topic: Topic, payload: Payload)
    | Sending(pub: nat, todo: set<ConnId>)
    | Leaving
    | Dropping
    | Joining
    | Closed

  /** `tx` is the connection's own sender; `open` its queue's receiving end. `written` has gone out
      to the socket; `accepted` is all the queue ever took. */
  datatype Conn = Conn(phase: Phase, tx: bool, open: bool, queue: seq<Item>, written: seq<Item>, accepted: seq<Item>)

  /** A publish, in lock order, and who was subscribed then, but for its publisher. */
  datatype Pub = Pub(publisher: ConnId, topic: Topic, payload: Payload, audience: set<ConnId>)

  datatype Reason = QueueFull | QueueClosed

  /** A topic's entry holds a sender for each subscriber: the connection whose queue it feeds. */
  datatype State = State(
    next: ConnId,
    conns: map<ConnId, Conn>,
    subs: map<Topic, map<ConnId, ConnId>>,
    lock: Option<ConnId>,
    log: seq<Pub>,
    dropped: map<(nat, ConnId), Reason>)
  {
    function With(c: ConnId, conn: Conn): State {
      this.(conns := conns[c := conn])
    }
  }

  const Start := State(1, map[], map[], None, [], map[])

  /** Why a queue does not take an item, if it does not. */
  function Refusal(conn: Conn): Option<Reason> {
    if !conn.open then Some(QueueClosed)
    else if |conn.queue| >= SUBSCRIBER_QUEUE_CAPACITY then Some(QueueFull)
    else None
  }

  function TrySend(conn: Conn, item: Item): Conn {
    if Refusal(conn).Some? then conn else conn.(queue := conn.queue + [item], accepted := conn.accepted + [item])
  }

  /** Acknowledges the request, and reads on. */
  function Acked(conn: Conn): Conn {
    TrySend(conn.(phase := Reading), Ack)
  }

  function Subscribe(subs: map<Topic, map<ConnId, ConnId>>, topic: Topic, c: ConnId): map<Topic, map<ConnId, ConnId>> {
    subs[topic := (if topic in subs then subs[topic] else map[])[c := c]]
  }

  function Unsubscribe(subs: map<Topic, map<ConnId, ConnId>>, topic: Topic, c: ConnId): map<Topic, map<ConnId, ConnId>> {
    if topic in subs then subs[topic := subs[topic] - {c}] else subs
  }

  /** Removes a connection from every topic, and then the topics nobody is left in. */
  function Forget(subs: map<Topic, map<ConnId, ConnId>>, c: ConnId): map<Topic, map<ConnId, ConnId>> {
    map t | t in subs && subs[t] - {c} != map[] :: subs[t] - {c}
  }

  // ----- the steps

  predicate Accept(s: State, s': State) {
    s' == s.(next := s.next + 1, conns := s.conns[s.next := Conn(Reading, true, true, [], [], [])])
  }

  /** What a frame asks for that needs the lock; `Leaving` stands for the end of the stream, or an
      error. */
  predicate IsRequest(phase: Phase) {
    phase.Subscribing? || phase.Unsubscribing? || phase.Publishing? || phase.Leaving?
  }

  /** A frame arrives, or none does any more. Registering is acknowledged at once, and what is no
      request is ignored. */
  ghost predicate ReadStep(s: State, c: ConnId, s': State)
    requires c in s.conns
  {
    var conn := s.conns[c];
    && conn.phase.Reading?
    && (|| (exists next :: IsRequest(next) && s' == s.With(c, conn.(phase := next)))
        || s' == s.With(c, Acked(conn))
        || s' == s)
  }

  /** What is done under the lock in one go, and a publish taking it. */
  predicate LockedStep(s: State, c: ConnId, s': State)
    requires c in s.conns
  {
    var conn := s.conns[c];
    s.lock.None? &&
    match conn.phase
    case Subscribing(t) => s' == s.With(c, Acked(conn)).(subs := Subscribe(s.subs, t, c))
    case Unsubscribing(t) => s' == s.With(c, Acked(conn)).(subs := Unsubscribe(s.subs, t, c))
    case Publishing(t, p) =>
      if t in s.subs then
        var audience := s.subs[t].Keys - {c};
        s' == s.With(c, conn.(phase := Sending(|s.log|, audience))).(lock := Some(c), log := s.log + [Pub(c, t, p, audience)])
      else
        s' == s.With(c, Acked(conn)).(log := s.log + [Pub(c, t, p, {})])
    case Leaving => s' == s.With(c, conn.(phase := Dropping)).(subs := Forget(s.subs, c))
    case _ => false
  }

  /** The publisher offers its event to subscriber `d`, whatever order they come in. */
  predicate OfferStep(s: State, c: ConnId, d: ConnId, s': State)
    requires c in s.conns && s.conns[c].phase.Sending?
  {
    var k, todo := s.conns[c].phase.pub, s.conns[c].phase.todo;
    && d in todo && k < |s.log| && s.log[k].topic in s.subs && d in s.subs[s.log[k].topic]
    && var e := s.subs[s.log[k].topic][d];
      && e in s.conns
      && s' == s.(
          conns := s.conns[e := TrySend(s.conns[e], Event(k))][c := s.conns[c].(phase := Sending(k, todo - {d}))],
          dropped := if Refusal(s.conns[e]).Some? then s.dropped[(k, e) := Refusal(s.conns[e]).value] else s.dropped)
  }

  predicate SendStep(s: State, c: ConnId, s': State)
    requires c in s.conns
  {
    && s.conns[c].phase.Sending?
    && (if s.conns[c].phase.todo == {} then s' == s.With(c, Acked(s.conns[c])).(lock := None)
        else exists d :: d in s.conns[c].phase.todo && OfferStep(s, c, d, s'))
  }

  /** After the map is clean: drop the own sender, and wait for the writer. */
  predicate CloseStep(s: State, c: ConnId, s': State)
    requires c in s.conns
  {
    var conn := s.conns[c];
    match conn.phase
    case Dropping => s' == s.With(c, conn.(tx := false, phase := Joining))
    case Joining => !conn.open && s' == s.With(c, conn.(phase := Closed))
    case _ => false
  }

  predicate NoSenders(s: State, c: ConnId) {
    && (c in s.conns ==> !s.conns[c].tx)
    && forall t, d :: t in s.subs && d in s.subs[t] ==> s.subs[t][d] != c
  }

  /** The writer task: writes the next item, or fails and ends; ends once nothing is left and nobody
      can send. */
  predicate WriterStep(s: State, c: ConnId, s': State)
    requires c in s.conns
  {
    var conn := s.conns[c];
    conn.open &&
    if conn.queue != [] then
      || s' == s.With(c, conn.(queue := conn.queue[1..], written := conn.written + [conn.queue[0]]))
      || s' == s.With(c, conn.(queue := [], open := false))
    else
      NoSenders(s, c) && s' == s.With(c, conn.(open := false))
  }

  /** A step of the tasks of connection `c`. */
  ghost predicate OwnStep(s: State, c: ConnId, s': State) {
    && c in s.conns
    && (ReadStep(s, c, s') || LockedStep(s, c, s') || SendStep(s, c, s') || CloseStep(s, c, s') || WriterStep(s, c, s'))
  }

  ghost predicate Next(s: State, s': State) {
    Accept(s, s') || exists c :: OwnStep(s, c, s')
  }

  // ----- the invariant

  /** Requests are still read, or their last one is being finished. */
  predicate Active(phase: Phase) {
    !phase.Dropping? && !phase.Joining? && !phase.Closed?
  }

  /** The queue and the wire. */
  predicate QueueOk(conn: Conn) {
    && |conn.queue| <= SUBSCRIBER_QUEUE_CAPACITY
    && (conn.open ==> conn.accepted == conn.written + conn.queue)
    && (!conn.open ==> conn.queue == [] && conn.written <= conn.accepted)
    && (conn.tx <==> Active(conn.phase) || conn.phase.Dropping?)
    && (conn.phase.Closed? ==> !conn.open)
  }

  /** Every sender in the map is its subscriber's own, and its connection is active. */
  ghost predicate SubsOk(s: State) {
    forall t, d :: Subscribed(s.subs, t, d) ==> s.subs[t][d] == d && d in s.conns && Active(s.conns[d].phase)
  }

  predicate Subscribed(subs: map<Topic, map<ConnId, ConnId>>, t: Topic, d: ConnId) {
    t in subs && d in subs[t]
  }

  /** Still to be offered event `k`. */
  predicate Awaits(s: State, d: ConnId, k: nat) {
    s.lock.Some? && s.lock.value in s.conns && s.conns[s.lock.value].phase.Sending?
    && s.conns[s.lock.value].phase.pub == k && d in s.conns[s.lock.value].phase.todo
  }

  /** A publisher holds the lock exactly while it sends the newest event to who is subscribed. */
  predicate LockOk(s: State) {
    && (forall c :: c in s.conns && s.conns[c].phase.Sending? ==> s.lock == Some(c))
    && (s.lock.Some? ==>
          && s.lock.value in s.conns && s.conns[s.lock.value].phase.Sending?
          && var phase := s.conns[s.lock.value].phase;
            && |s.log| > 0 && phase.pub == |s.log| - 1 && phase.todo <= s.log[phase.pub].audience
            && s.log[phase.pub].publisher == s.lock.value
            && s.log[phase.pub].topic in s.subs && s.log[phase.pub].audience == s.subs[s.log[phase.pub].topic].Keys - {s.lock.value})
  }

  /** A connection takes events in the order of the log, each at most once, and only such as were
      published by others to a topic it was subscribed to then. */
  predicate EventsOk(s: State, d: ConnId, accepted: seq<Item>) {
    && (forall i :: 0 <= i < |accepted| && accepted[i].Event? ==>
          accepted[i].pub < |s.log| && d in s.log[accepted[i].pub].audience && !Awaits(s, d, accepted[i].pub))
    && (forall i, j :: 0 <= i < j < |accepted| && accepted[i].Event? && accepted[j].Event? ==> accepted[i].pub < accepted[j].pub)
  }

  /** Event `k` was taken by `d`, or refused by a queue that was full or closed, or is still to be
      offered; and only one of these. */
  predicate AccountedFor(s: State, d: ConnId, k: nat) {
    && d in s.conns
    && (Event(k) in s.conns[d].accepted || (k, d) in s.dropped || Awaits(s, d, k))
    && !(Event(k) in s.conns[d].accepted && (k, d) in s.dropped)
    && (Awaits(s, d, k) ==> Event(k) !in s.conns[d].accepted && (k, d) !in s.dropped)
  }

  predicate ConnsOk(s: State) {
    forall d :: d in s.conns ==> d < s.next && QueueOk(s.conns[d]) && EventsOk(s, d, s.conns[d].accepted)
  }

  predicate LogOk(s: State) {
    && (forall k, d :: 0 <= k < |s.log| && d in s.log[k].audience ==> d != s.log[k].publisher && AccountedFor(s, d, k))
    && (forall p :: p in s.dropped ==> p.0 < |s.log|)
  }

  ghost predicate Inv(s: State) {
    SubsOk(s) && LockOk(s) && ConnsOk(s) && LogOk(s)
  }

  // ----- every step keeps it

  /** The map is the same, and no active connection stopped being one. */
  lemma SameSubs(s: State, s': State)
    requires SubsOk(s) && s'.subs == s.subs
    requires forall d :: d in s.conns ==> d in s'.conns && (Active(s.conns[d].phase) ==> Active(s'.conns[d].phase))
    ensures SubsOk(s')
  {
    hide Subscribed;
    assert forall t, d :: Subscribed(s'.subs, t, d) ==> Subscribed(s.subs, t, d);
  }

  predicate Same(item: seq<Item>, after: seq<Item>) {
    after == item || after == item + [Ack]
  }

  /** A change of connection `c` that the map, the lock and the log do not notice. */
  ghost predicate Quiet(s: State, c: ConnId, conn: Conn) {
    && c in s.conns && QueueOk(conn) && Same(s.conns[c].accepted, conn.accepted)
    && (conn.phase == s.conns[c].phase || (!conn.phase.Sending? && !s.conns[c].phase.Sending?))
    && (Active(conn.phase) || forall t :: !Subscribed(s.subs, t, c))
  }

  lemma QuietKeepsLock(s: State, c: ConnId, conn: Conn)
    requires LockOk(s) && Quiet(s, c, conn)
    ensures LockOk(s.With(c, conn)) && forall d, k :: Awaits(s.With(c, conn), d, k) == Awaits(s, d, k)
  {
    hide QueueOk, Same, Active;
  }

  lemma QuietKeepsSubs(s: State, c: ConnId, conn: Conn)
    requires SubsOk(s) && Quiet(s, c, conn)
    ensures SubsOk(s.With(c, conn))
  {
    if Active(conn.phase) {
      SameSubs(s, s.With(c, conn));
    } else {
      assert forall t, d :: Subscribed(s.subs, t, d) ==> d != c;
    }
    hide QueueOk, Same, Subscribed;
  }

  lemma AckKeepsEvents(s: State, s': State, d: ConnId, before: seq<Item>, after: seq<Item>)
    requires EventsOk(s, d, before) && Same(before, after) && s'.log == s.log
    requires forall k :: Awaits(s', d, k) ==> Awaits(s, d, k)
    ensures EventsOk(s', d, after)
    ensures forall k :: Event(k) in after <==> Event(k) in before
  {
    hide Awaits;
    assert forall i :: 0 <= i < |before| ==> after[i] == before[i];
  }

  lemma QuietKeepsConns(s: State, c: ConnId, conn: Conn)
    requires ConnsOk(s) && LockOk(s) && Quiet(s, c, conn)
    ensures ConnsOk(s.With(c, conn))
  {
    var s' := s.With(c, conn);
    QuietKeepsLock(s, c, conn);
    hide LockOk, Awaits, QueueOk, EventsOk, Same;
    forall d | d in s'.conns ensures EventsOk(s', d, s'.conns[d].accepted) {
      assert Same(s.conns[d].accepted, s'.conns[d].accepted) by { IsSame(s.conns[d].accepted); }
      AckKeepsEvents(s, s', d, s.conns[d].accepted, s'.conns[d].accepted);
    }
  }

  lemma IsSame(a: seq<Item>)
    ensures Same(a, a)
  {
  }

  lemma QuietKeepsLog(s: State, c: ConnId, conn: Conn)
    requires LogOk(s) && LockOk(s) && Quiet(s, c, conn)
    ensures LogOk(s.With(c, conn))
  {
    var s' := s.With(c, conn);
    QuietKeepsLock(s, c, conn);
    assert forall k :: Event(k) in conn.accepted <==> Event(k) in s.conns[c].accepted;
    hide LockOk, Awaits, QueueOk, Same;
    assert forall k, d | AccountedFor(s, d, k) :: AccountedFor(s', d, k);
  }

  lemma QuietKeeps(s: State, c: ConnId, conn: Conn)
    requires Inv(s) && Quiet(s, c, conn)
    ensures Inv(s.With(c, conn))
  {
    QuietKeepsSubs(s, c, conn);
    QuietKeepsLock(s, c, conn);
    QuietKeepsConns(s, c, conn);
    QuietKeepsLog(s, c, conn);
    hide SubsOk, LockOk, ConnsOk, LogOk;
  }

  /** While nobody sends, the map may change to any other map of active subscribers. */
  lemma MapKeeps(s: State, subs: map<Topic, map<ConnId, ConnId>>)
    requires Inv(s) && s.lock.None? && SubsOk(s.(subs := subs))
    ensures Inv(s.(subs := subs))
  {
    var s' := s.(subs := subs);
    hide SubsOk, QueueOk;
    assert forall d, k :: Awaits(s', d, k) == Awaits(s, d, k);
    hide Awaits;
    assert forall d, a | EventsOk(s, d, a) :: EventsOk(s', d, a);
    assert forall k, d | AccountedFor(s, d, k) :: AccountedFor(s', d, k);
  }

  lemma AckedIsQuiet(s: State, c: ConnId)
    requires Inv(s) && c in s.conns && Active(s.conns[c].phase) && !s.conns[c].phase.Sending?
    ensures Quiet(s, c, Acked(s.conns[c]))
  {
    var conn := s.conns[c];
    assert conn.open && |conn.queue| < SUBSCRIBER_QUEUE_CAPACITY ==>
      (conn.written + conn.queue) + [Ack] == conn.written + (conn.queue + [Ack]);
    hide SubsOk, LockOk, LogOk, EventsOk;
  }

  /** Entries of the map that were there before, or are the active connection `c`'s own. */
  lemma SubsWithin(s: State, c: ConnId, subs: map<Topic, map<ConnId, ConnId>>)
    requires SubsOk(s) && c in s.conns && Active(s.conns[c].phase)
    requires forall t, d :: Subscribed(subs, t, d) ==>
      (d == c && subs[t][d] == c) || (Subscribed(s.subs, t, d) && subs[t][d] == s.subs[t][d])
    ensures SubsOk(s.(subs := subs))
  {
  }

  lemma SubscribeKeeps(s: State, c: ConnId, topic: Topic)
    requires Inv(s) && s.lock.None? && c in s.conns && s.conns[c].phase.Subscribing?
    ensures Inv(s.With(c, Acked(s.conns[c])).(subs := Subscribe(s.subs, topic, c)))
  {
    AckedIsQuiet(s, c);
    QuietKeeps(s, c, Acked(s.conns[c]));
    hide LockOk, LogOk, ConnsOk, SubsOk;
    SubsWithin(s.With(c, Acked(s.conns[c])), c, Subscribe(s.subs, topic, c));
    MapKeeps(s.With(c, Acked(s.conns[c])), Subscribe(s.subs, topic, c));
  }

  lemma UnsubscribeKeeps(s: State, c: ConnId, topic: Topic)
    requires Inv(s) && s.lock.None? && c in s.conns && s.conns[c].phase.Unsubscribing?
    ensures Inv(s.With(c, Acked(s.conns[c])).(subs := Unsubscribe(s.subs, topic, c)))
  {
    AckedIsQuiet(s, c);
    QuietKeeps(s, c, Acked(s.conns[c]));
    hide LockOk, LogOk, ConnsOk, SubsOk;
    SubsWithin(s.With(c, Acked(s.conns[c])), c, Unsubscribe(s.subs, topic, c));
    MapKeeps(s.With(c, Acked(s.conns[c])), Unsubscribe(s.subs, topic, c));
  }

  /** The clean-up leaves no sender of the connection behind. */
  lemma LeaveKeeps(s: State, c: ConnId)
    requires Inv(s) && s.lock.None? && c in s.conns && s.conns[c].phase.Leaving?
    ensures Inv(s.With(c, s.conns[c].(phase := Dropping)).(subs := Forget(s.subs, c)))
  {
    var t := s.(subs := Forget(s.subs, c));
    hide LockOk, LogOk, ConnsOk;
    SubsWithin(s, c, Forget(s.subs, c));
    MapKeeps(s, Forget(s.subs, c));
    assert QueueOk(s.conns[c]) by { assert ConnsOk(s); QueueOf(s, c); }
    assert Quiet(t, c, t.conns[c].(phase := Dropping));
    QuietKeeps(t, c, t.conns[c].(phase := Dropping));
    assert s.With(c, s.conns[c].(phase := Dropping)).(subs := Forget(s.subs, c)) == t.With(c, t.conns[c].(phase := Dropping));
  }

  lemma QueueOf(s: State, c: ConnId)
    requires ConnsOk(s) && c in s.conns
    ensures QueueOk(s.conns[c])
  {
  }

  lemma AcceptKeeps(s: State, s': State)
    requires Inv(s) && Accept(s, s')
    ensures Inv(s')
  {
    assert s.next !in s.conns;
    SameSubs(s, s');
    assert LockOk(s');
    assert QueueOk(s'.conns[s.next]) by { FreshQueue(); }
    hide QueueOk, SubsOk, LockOk;
    assert forall d, k :: Awaits(s', d, k) == Awaits(s, d, k);
    hide Awaits;
    assert forall d, a | EventsOk(s, d, a) :: EventsOk(s', d, a);
    assert forall k, d | AccountedFor(s, d, k) :: AccountedFor(s', d, k);
  }

  lemma FreshQueue()
    ensures QueueOk(Conn(Reading, true, true, [], [], []))
  {
  }

  function Published(s: State, c: ConnId, topic: Topic, payload: Payload, audience: set<ConnId>): State
    requires c in s.conns
  {
    s.With(c, s.conns[c].(phase := Sending(|s.log|, audience))).(lock := Some(c), log := s.log + [Pub(c, topic, payload, audience)])
  }

  lemma PublishKeepsLock(s: State, c: ConnId, topic: Topic, payload: Payload)
    requires Inv(s) && s.lock.None? && c in s.conns && s.conns[c].phase.Publishing? && topic in s.subs
    ensures var audience := s.subs[topic].Keys - {c};
      var s' := Published(s, c, topic, payload, audience);
      && SubsOk(s') && LockOk(s')
      && (forall d, j :: !Awaits(s, d, j))
      && (forall d, j :: Awaits(s', d, j) == (j == |s.log| && d in audience))
      && (forall d :: d in audience ==> d in s.conns)
  {
    hide ConnsOk, LogOk;
    var s' := Published(s, c, topic, payload, s.subs[topic].Keys - {c});
    SameSubs(s, s');
    assert forall d :: d in s.subs[topic] ==> Subscribed(s.subs, topic, d);
    hide Subscribed;
  }

  /** A publish enters the log, and its publisher takes the lock if anyone may be subscribed. */
  lemma PublishKeeps(s: State, c: ConnId, topic: Topic, payload: Payload)
    requires Inv(s) && s.lock.None? && c in s.conns && s.conns[c].phase.Publishing? && topic in s.subs
    ensures Inv(Published(s, c, topic, payload, s.subs[topic].Keys - {c}))
  {
    var k, audience := |s.log|, s.subs[topic].Keys - {c};
    var s' := Published(s, c, topic, payload, audience);
    PublishKeepsLock(s, c, topic, payload);
    assert QueueOk(s'.conns[c]) by { QueueOf(s, c); }
    hide SubsOk, LockOk, Awaits, QueueOk;
    assert forall j :: 0 <= j < k ==> s'.log[j] == s.log[j];
    assert forall d, a | EventsOk(s, d, a) :: EventsOk(s', d, a);
    forall d | d in audience ensures AccountedFor(s', d, k) {
      assert EventsOk(s, d, s.conns[d].accepted);
    }
    forall j, d | 0 <= j < k && d in s.log[j].audience ensures AccountedFor(s', d, j) {
      assert AccountedFor(s, d, j);
    }
    hide EventsOk, AccountedFor;
  }

  lemma PublishToNobody(s: State, c: ConnId, topic: Topic, payload: Payload)
    requires Inv(s) && s.lock.None? && c in s.conns
    ensures Inv(s.(log := s.log + [Pub(c, topic, payload, {})]))
  {
    var s' := s.(log := s.log + [Pub(c, topic, payload, {})]);
    assert forall j :: 0 <= j < |s.log| ==> s'.log[j] == s.log[j];
    SameSubs(s, s');
    assert forall d, j :: Awaits(s', d, j) == Awaits(s, d, j);
    hide Awaits, QueueOk, SubsOk;
    assert forall d, a | EventsOk(s, d, a) :: EventsOk(s', d, a);
    assert forall j, d | AccountedFor(s, d, j) :: AccountedFor(s', d, j);
  }

  /** What an offer of event `k` to `d` leaves. */
  function Offered(s: State, c: ConnId, d: ConnId, k: nat, todo: set<ConnId>): State
    requires c in s.conns && d in s.conns
  {
    s.(conns := s.conns[d := TrySend(s.conns[d], Event(k))][c := s.conns[c].(phase := Sending(k, todo - {d}))],
       dropped := if Refusal(s.conns[d]).Some? then s.dropped[(k, d) := Refusal(s.conns[d]).value] else s.dropped)
  }

  lemma OfferIs(s: State, c: ConnId, d: ConnId, s': State)
    requires Inv(s) && c in s.conns && s.conns[c].phase.Sending? && OfferStep(s, c, d, s')
    ensures var k, todo := s.conns[c].phase.pub, s.conns[c].phase.todo;
      d in todo && d != c && d in s.conns && s.lock == Some(c) && k == |s.log| - 1 && Awaits(s, d, k) && s' == Offered(s, c, d, k, todo)
  {
    hide ConnsOk, LogOk, TrySend, Refusal;
  }

  lemma OfferKeepsLock(s: State, c: ConnId, d: ConnId)
    requires SubsOk(s) && LockOk(s) && c in s.conns && s.conns[c].phase.Sending? && d in s.conns[c].phase.todo && d != c && d in s.conns
    ensures var s' := Offered(s, c, d, s.conns[c].phase.pub, s.conns[c].phase.todo);
      && SubsOk(s') && LockOk(s')
      && forall e, j :: Awaits(s', e, j) == (Awaits(s, e, j) && e != d)
  {
    assert TrySend(s.conns[d], Event(s.conns[c].phase.pub)).phase == s.conns[d].phase;
    hide TrySend, Refusal;
    SameSubs(s, Offered(s, c, d, s.conns[c].phase.pub, s.conns[c].phase.todo));
    hide SubsOk, Subscribed;
  }

  lemma OfferKeepsQueue(conn: Conn, k: nat)
    requires QueueOk(conn)
    ensures QueueOk(TrySend(conn, Event(k)))
  {
    assert conn.written + (conn.queue + [Event(k)]) == (conn.written + conn.queue) + [Event(k)];
  }

  lemma OfferKeepsEvents(s: State, s': State, d: ConnId, k: nat)
    requires d in s.conns && EventsOk(s, d, s.conns[d].accepted) && s'.log == s.log && k == |s.log| - 1 && d in s.log[k].audience
    requires Awaits(s, d, k) && !Awaits(s', d, k) && forall e, j :: Awaits(s', e, j) ==> Awaits(s, e, j)
    ensures EventsOk(s', d, TrySend(s.conns[d], Event(k)).accepted)
  {
    hide Awaits;
  }

  lemma OfferKeepsConns(s: State, c: ConnId, d: ConnId, s': State)
    requires Inv(s) && c in s.conns && s.conns[c].phase.Sending? && OfferStep(s, c, d, s')
    ensures ConnsOk(s')
  {
    OfferIs(s, c, d, s');
    OfferKeepsLock(s, c, d);
    assert d in s.log[|s.log| - 1].audience;
    OfferKeepsQueue(s.conns[d], |s.log| - 1);
    OfferKeepsEvents(s, s', d, |s.log| - 1);
    assert forall q: Conn, phase: Phase | QueueOk(q) && phase.Sending? && q.phase.Sending? :: QueueOk(q.(phase := phase));
    hide Awaits, QueueOk, SubsOk, LockOk, LogOk, OfferStep, TrySend, Refusal;
    forall e | e in s'.conns ensures EventsOk(s', e, s'.conns[e].accepted) {
      if e != d {
        assert EventsOk(s, e, s.conns[e].accepted);
      }
    }
    hide EventsOk;
  }

  lemma OfferKeepsLog(s: State, c: ConnId, d: ConnId, s': State)
    requires Inv(s) && c in s.conns && s.conns[c].phase.Sending? && OfferStep(s, c, d, s')
    ensures LogOk(s')
  {
    OfferIs(s, c, d, s');
    OfferKeepsLock(s, c, d);
    var k := |s.log| - 1;
    var conn, after := s.conns[d], TrySend(s.conns[d], Event(k));
    assert forall j :: Event(j) in after.accepted <==> Event(j) in conn.accepted || (j == k && Refusal(conn).None?);
    hide Awaits, QueueOk, SubsOk, LockOk, ConnsOk, OfferStep, TrySend, Refusal, EventsOk;
    forall j, e | 0 <= j < |s.log| && e in s.log[j].audience ensures AccountedFor(s', e, j) {
      assert AccountedFor(s, e, j);
    }
  }

  lemma OfferKeeps(s: State, c: ConnId, d: ConnId, s': State)
    requires Inv(s) && c in s.conns && s.conns[c].phase.Sending? && OfferStep(s, c, d, s')
    ensures Inv(s')
  {
    OfferIs(s, c, d, s');
    OfferKeepsLock(s, c, d);
    OfferKeepsConns(s, c, d, s');
    OfferKeepsLog(s, c, d, s');
    hide SubsOk, LockOk, ConnsOk, LogOk, OfferStep, Offered;
  }

  /** The publisher gives the lock back once everyone was offered its event. */
  lemma SentKeeps(s: State, c: ConnId)
    requires Inv(s) && c in s.conns && s.conns[c].phase.Sending? && s.conns[c].phase.todo == {}
    ensures Inv(s.With(c, s.conns[c].(phase := Reading)).(lock := None))
  {
    var s' := s.With(c, s.conns[c].(phase := Reading)).(lock := None);
    SameSubs(s, s');
    hide SubsOk;
    assert LockOk(s');
    assert forall d, j :: !Awaits(s', d, j) && !Awaits(s, d, j);
    assert QueueOk(s'.conns[c]) by { QueueOf(s, c); }
    hide Awaits, QueueOk, SubsOk, LockOk;
    assert forall d, a | EventsOk(s, d, a) :: EventsOk(s', d, a);
    assert forall j, d | AccountedFor(s, d, j) :: AccountedFor(s', d, j);
  }

  lemma ReadKeeps(s: State, c: ConnId, s': State)
    requires Inv(s) && c in s.conns && ReadStep(s, c, s')
    ensures Inv(s')
  {
    var conn := s.conns[c];
    QueueOf(s, c);
    AckedIsQuiet(s, c);
    hide SubsOk, LockOk, ConnsOk, LogOk;
    if s' == s.With(c, Acked(conn)) {
      QuietKeeps(s, c, Acked(conn));
    } else if s' != s {
      var next :| IsRequest(next) && s' == s.With(c, conn.(phase := next));
      QuietKeeps(s, c, conn.(phase := next));
    }
  }

  lemma LockedKeeps(s: State, c: ConnId, s': State)
    requires Inv(s) && c in s.conns && LockedStep(s, c, s')
    ensures Inv(s')
  {
    var conn := s.conns[c];
    hide SubsOk, LockOk, ConnsOk, LogOk, Acked;
    match conn.phase {
      case Subscribing(t) => SubscribeKeeps(s, c, t);
      case Unsubscribing(t) => UnsubscribeKeeps(s, c, t);
      case Leaving => LeaveKeeps(s, c);
      case Publishing(t, p) =>
        if t in s.subs {
          PublishKeeps(s, c, t, p);
        } else {
          var t1 := s.(log := s.log + [Pub(c, t, p, {})]);
          PublishToNobody(s, c, t, p);
          AckedIsQuiet(t1, c);
          QuietKeeps(t1, c, Acked(t1.conns[c]));
        }
    }
  }

  lemma CloseKeeps(s: State, c: ConnId, s': State)
    requires Inv(s) && c in s.conns && CloseStep(s, c, s')
    ensures Inv(s')
  {
    var conn := s.conns[c];
    QueueOf(s, c);
    assert forall t :: !Subscribed(s.subs, t, c);
    hide SubsOk, LockOk, ConnsOk, LogOk;
    QuietKeeps(s, c, if conn.phase.Dropping? then conn.(tx := false, phase := Joining) else conn.(phase := Closed));
  }

  lemma WriterKeeps(s: State, c: ConnId, s': State)
    requires Inv(s) && c in s.conns && WriterStep(s, c, s')
    ensures Inv(s')
  {
    var conn, after := s.conns[c], s'.conns[c];
    QueueOf(s, c);
    assert conn.queue != [] ==> conn.written + conn.queue == (conn.written + [conn.queue[0]]) + conn.queue[1..];
    assert Active(conn.phase) || forall t :: !Subscribed(s.subs, t, c);
    hide SubsOk, LockOk, ConnsOk, LogOk, NoSenders;
    assert s' == s.With(c, after);
    QuietKeeps(s, c, after);
  }

  lemma SendDoneKeeps(s: State, c: ConnId, s': State)
    requires Inv(s) && c in s.conns && s.conns[c].phase.Sending? && s.conns[c].phase.todo == {} && SendStep(s, c, s')
    ensures Inv(s')
  {
    var t := s.With(c, s.conns[c].(phase := Reading)).(lock := None);
    SentKeeps(s, c);
    hide Inv;
    AckedIsQuiet(t, c);
    QuietKeeps(t, c, Acked(t.conns[c]));
    assert Acked(t.conns[c]) == Acked(s.conns[c]);
    hide Acked;
    assert s'.conns == t.With(c, Acked(t.conns[c])).conns;
    assert s' == t.With(c, Acked(t.conns[c]));
  }

  lemma StepKeeps(s: State, c: ConnId, s': State)
    requires Inv(s) && OwnStep(s, c, s')
    ensures Inv(s')
  {
    hide Inv, ReadStep, LockedStep, CloseStep, WriterStep, OfferStep;
    if ReadStep(s, c, s') { ReadKeeps(s, c, s'); }
    else if LockedStep(s, c, s') { LockedKeeps(s, c, s'); }
    else if CloseStep(s, c, s') { CloseKeeps(s, c, s'); }
    else if WriterStep(s, c, s') { WriterKeeps(s, c, s'); }
    else if s.conns[c].phase.todo == {} { SendDoneKeeps(s, c, s'); }
    else {
      var d :| d in s.conns[c].phase.todo && OfferStep(s, c, d, s');
      OfferKeeps(s, c, d, s');
    }
  }
}
