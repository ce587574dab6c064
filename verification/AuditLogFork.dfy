/** What `AuditLog.LosesHead` is excluded for: a writer that fails between a rotation and its own
    record can leave the chain to start over, and then verification rejects the log. */
module AuditLogFork {
  import opened Wrappers
  import opened Texts
  import opened Json
  import opened AuditChain
  import opened AuditFile
  import opened AuditLog
  import opened AuditLogProof
  import opened AuditLogRuns
  import FileLock

  // ----- runs, put together

  ghost predicate Path(c: Config, r: seq<State>) {
    |r| > 0 && forall k :: 0 <= k < |r| - 1 ==> Follows(c, r[k], r[k + 1])
  }

  ghost predicate Reaches(c: Config, s: State, t: State) {
    exists r :: Path(c, r) && r[0] == s && r[|r| - 1] == t
  }

  lemma ByStep(c: Config, s: State, t: State)
    requires Next(c, s, 0, t)
    ensures Reaches(c, s, t)
  {
    hide Next;
    assert Follows(c, s, t);
    assert Path(c, [s, t]) && [s, t][0] == s && [s, t][1] == t;
  }

  lemma Then(c: Config, s: State, t: State, u: State)
    requires Reaches(c, s, t) && Reaches(c, t, u)
    ensures Reaches(c, s, u)
  {
    hide Follows;
    var a :| Path(c, a) && a[0] == s && a[|a| - 1] == t;
    var b :| Path(c, b) && b[0] == t && b[|b| - 1] == u;
    var r := a + b[1..];
    forall k | 0 <= k < |r| - 1 ensures Follows(c, r[k], r[k + 1]) {
      if k < |a| - 1 {
        assert Follows(c, a[k], a[k + 1]);
      } else {
        assert r[k] == b[k - |a| + 1] && r[k + 1] == b[k - |a| + 2];
        assert Follows(c, b[k - |a| + 1], b[k - |a| + 1 + 1]);
      }
    }
    assert Path(c, r);
  }

  lemma OneMore(c: Config, s: State, t: State, u: State)
    requires Reaches(c, s, t) && Next(c, t, 0, u)
    ensures Reaches(c, s, u)
  {
    hide Next, Reaches;
    ByStep(c, t, u);
    Then(c, s, t, u);
  }

  // ----- one process, in and out of the lock

  /** Process 0 alone, with the lock in state `l`. */
  function At(l: FileLock.State, d: Disk, pc: Pc, k: Option<Cache>): State {
    State(l, d, map[0 := Client(pc, k)])
  }

  predicate Free(l: FileLock.State) {
    l.main.None? && l.brk.None? && l.dead == {} && l.pc == map[0 := FileLock.Idle]
  }

  predicate Taken(l: FileLock.State) {
    && l.main.Some? && l.main.value < |l.inodes| && l.inodes[l.main.value].content == FileLock.Owner(0, l.main.value)
    && l.brk.None? && l.dead == {} && l.pc == map[0 := FileLock.Held(l.main.value)]
  }

  /** Process 0 takes a step of acquiring or releasing the lock. */
  predicate Moves(l: FileLock.State, l': FileLock.State) {
    && l.pc.Keys == l'.pc.Keys == {0} && l.dead == l'.dead == {}
    && FileLock.MyBreak(l.pc[0]).None? && FileLock.AcquireStep(l, 0, l')
  }

  lemma LockMoves(c: Config, l: FileLock.State, l': FileLock.State, d: Disk, pc: Pc, pc': Pc, k: Option<Cache>)
    requires Moves(l, l') && !pc'.Exit?
    requires l.pc[0].Held? == l'.pc[0].Held? ==> pc' == pc
    requires !l.pc[0].Held? && l'.pc[0].Held? ==> pc' == Entered
    requires l.pc[0].Held? && !l'.pc[0].Held? ==> pc.Exit? && pc' == Out
    ensures Next(c, At(l, d, pc, k), 0, At(l', d, pc', k))
  {
    var s, s' := At(l, d, pc, k), At(l', d, pc', k);
    hide FileLock.AcquireStep, FileLock.JudgeStep, FileLock.BreakStep, FileLock.ClearStep, FileLock.ErrorStep, Findable, HolderStep;
    assert FileLock.Next(l, 0, l');
    assert s.clients[0 := s.clients[0].(pc := pc')] == s'.clients;
    assert LockStep(s, 0, s');
  }

  function Tried(l: FileLock.State): FileLock.State {
    l.To(0, FileLock.Trying)
  }

  function Created(l: FileLock.State): FileLock.State {
    var i := |l.inodes|;
    l.(main := Some(i), inodes := l.inodes + [FileLock.Inode(0, FileLock.Torn)]).To(0, FileLock.Writing(i))
  }

  function Got(l: FileLock.State, i: nat): FileLock.State
    requires i < |l.inodes|
  {
    l.Write(i, FileLock.Owner(0, i)).To(0, FileLock.Held(i))
  }

  lemma TakingSteps(l: FileLock.State)
    requires Free(l)
    ensures var i, l1 := |l.inodes|, Tried(l); var l2 := Created(l1);
      && Moves(l, l1) && Moves(l1, l2) && i < |l2.inodes| && Moves(l2, Got(l2, i)) && Taken(Got(l2, i))
      && l1.pc[0].Trying? && l2.pc[0].Writing?
  {
  }

  lemma Enters(c: Config, l: FileLock.State, d: Disk, k: Option<Cache>)
    requires Free(l)
    ensures exists l' :: Taken(l') && Reaches(c, At(l, d, Out, k), At(l', d, Entered, k))
  {
    TakingSteps(l);
    var l1 := Tried(l);
    var l2 := Created(l1);
    var l3 := Got(l2, |l.inodes|);
    assert l.pc[0].Idle? && l3.pc[0].Held?;
    hide Reaches, Next, Moves, Free, Taken, Tried, Created, Got;
    LockMoves(c, l, l1, d, Out, Out, k);
    ByStep(c, At(l, d, Out, k), At(l1, d, Out, k));
    LockMoves(c, l1, l2, d, Out, Out, k);
    OneMore(c, At(l, d, Out, k), At(l1, d, Out, k), At(l2, d, Out, k));
    LockMoves(c, l2, l3, d, Out, Entered, k);
    OneMore(c, At(l, d, Out, k), At(l2, d, Out, k), At(l3, d, Entered, k));
  }

  lemma LeavingSteps(l: FileLock.State)
    requires Taken(l)
    ensures var i := l.main.value;
      var l1 := l.To(0, FileLock.CheckRelease(i));
      var l2 := l1.To(0, FileLock.UnlinkMine(i));
      var l3 := l2.(main := None).To(0, FileLock.Idle);
      && Moves(l, l1) && Moves(l1, l2) && Moves(l2, l3) && Free(l3)
      && l1.pc[0].CheckRelease? && l2.pc[0].UnlinkMine?
  {
  }

  lemma Leaves(c: Config, l: FileLock.State, d: Disk, k: Option<Cache>)
    requires Taken(l)
    ensures exists l' :: Free(l') && Reaches(c, At(l, d, Exit, k), At(l', d, Out, k))
  {
    LeavingSteps(l);
    var i := l.main.value;
    var l1 := l.To(0, FileLock.CheckRelease(i));
    var l2 := l1.To(0, FileLock.UnlinkMine(i));
    var l3 := l2.(main := None).To(0, FileLock.Idle);
    assert l.pc[0].Held? && l3.pc[0].Idle?;
    hide Reaches, Next, Moves, Free, Taken;
    LockMoves(c, l, l1, d, Exit, Out, k);
    ByStep(c, At(l, d, Exit, k), At(l1, d, Out, k));
    LockMoves(c, l1, l2, d, Out, Out, k);
    OneMore(c, At(l, d, Exit, k), At(l1, d, Out, k), At(l2, d, Out, k));
    LockMoves(c, l2, l3, d, Out, Out, k);
    OneMore(c, At(l, d, Exit, k), At(l2, d, Out, k), At(l3, d, Out, k));
  }

  /** From outside to outside, if what goes on inside does not depend on the lock's files. */
  ghost predicate Cycle(c: Config, d: Disk, k: Option<Cache>, d': Disk, k': Option<Cache>) {
    forall l :: Taken(l) ==> Reaches(c, At(l, d, Entered, k), At(l, d', Exit, k'))
  }

  lemma AroundOnce(c: Config, l: FileLock.State, d: Disk, k: Option<Cache>, d': Disk, k': Option<Cache>)
    requires Free(l) && Cycle(c, d, k, d', k')
    ensures exists l' :: Free(l') && Reaches(c, At(l, d, Out, k), At(l', d', Out, k'))
  {
    hide Reaches, Free, Taken;
    Enters(c, l, d, k);
    var m :| Taken(m) && Reaches(c, At(l, d, Out, k), At(m, d, Entered, k));
    Then(c, At(l, d, Out, k), At(m, d, Entered, k), At(m, d', Exit, k'));
    Leaves(c, m, d', k');
    var l' :| Free(l') && Reaches(c, At(m, d', Exit, k'), At(l', d', Out, k'));
    Then(c, At(l, d, Out, k), At(m, d', Exit, k'), At(l', d', Out, k'));
  }

  // ----- inside

  lemma Inside(l: FileLock.State, d: Disk, pc: Pc, k: Option<Cache>)
    requires Taken(l)
    ensures At(l, d, pc, k).Holds(0) && FileLock.HeldBy(l, 0)
    ensures forall d', pc' :: At(l, d, pc, k).Go(0, d', pc') == At(l, d', pc', k)
    ensures forall k' :: At(l, d, pc, k).Leave(0, k') == At(l, d, Exit, k')
  {
    forall d', pc' ensures At(l, d, pc, k).Go(0, d', pc') == At(l, d', pc', k) {
      assert map[0 := Client(pc, k)][0 := Client(pc', k)] == map[0 := Client(pc', k)];
    }
    forall k' ensures At(l, d, pc, k).Leave(0, k') == At(l, d, Exit, k') {
      assert map[0 := Client(pc, k)][0 := Client(Exit, k')] == map[0 := Client(Exit, k')];
    }
  }

  /** The head was found, or the newest segment's was looked for. */
  lemma ReadsLive(c: Config, l: FileLock.State, d: Disk, k: Option<Cache>)
    requires Taken(l)
    ensures var pc := if HeadIn(d.live).Some? then Ready(HeadIn(d.live).value) else LiveMissed;
      Next(c, At(l, d, Entered, k), 0, At(l, RepairLive(d), pc, k))
  {
    Inside(l, d, Entered, k);
    hide Taken, HeadIn, Findable, RepairLive, FileLock.Next;
  }

  lemma ReadsNewest(c: Config, l: FileLock.State, d: Disk, k: Option<Cache>)
    requires Taken(l)
    ensures var h := HeadIn(Newest(d.rotated));
      Next(c, At(l, d, LiveMissed, k), 0, At(l, RepairNewest(d), Ready(if h.Some? then h.value else Head(GENESIS, 0)), k))
  {
    Inside(l, d, LiveMissed, k);
    hide Taken, HeadIn, Findable, RepairNewest, FileLock.Next;
  }

  lemma UsesCache(c: Config, l: FileLock.State, d: Disk, k: Cache)
    requires Taken(l) && Hit(d, Some(k))
    ensures Next(c, At(l, d, Entered, Some(k)), 0, At(l, d, Ready(k.head), Some(k)))
  {
    Inside(l, d, Entered, Some(k));
    hide Taken, HeadIn, Findable, FileLock.Next;
  }

  lemma Starts(c: Config, l: FileLock.State, d: Disk, h: Head, e: Fields, k: Option<Cache>)
    requires Taken(l) && IsEvent(e)
    ensures var job := JobFor(c, h, e);
      Next(c, At(l, d, Ready(h), k), 0,
        if Full(c, d) then At(l, DropOldest(c, d), Shift(job, FirstShift(c)), k) else At(l, d, Checking(job), k))
  {
    Inside(l, d, Ready(h), k);
    hide Taken, IsEvent, JobFor, Findable, FileLock.Next;
    var s := At(l, d, Ready(h), k);
    assert RotateStep(c, s, 0, StartJob(c, s, 0, JobFor(c, h, e), true));
  }

  lemma Shifts(c: Config, l: FileLock.State, d: Disk, job: Job, i: nat, k: Option<Cache>)
    requires Taken(l)
    ensures i > 0 ==> Next(c, At(l, d, Shift(job, i), k), 0, At(l, d.(rotated := Renamed(d.rotated, i)), Shift(job, i - 1), k))
    ensures i == 0 && d.live.Some? ==> Next(c, At(l, d, Shift(job, i), k), 0, At(l, MoveAside(d), Checking(job), k))
  {
    Inside(l, d, Shift(job, i), k);
    hide Taken, Findable, FileLock.Next, Renamed, MoveAside;
  }

  lemma Opens(c: Config, l: FileLock.State, d: Disk, job: Job, k: Option<Cache>)
    requires Taken(l)
    ensures Next(c, At(l, d, Checking(job), k), 0, At(l, d, Appending(job, TextOf(d.live), 0), k))
  {
    Inside(l, d, Checking(job), k);
    hide Taken, Findable, FileLock.Next, FileLock.HeldBy, TextOf;
  }

  lemma Appends(c: Config, l: FileLock.State, d: Disk, job: Job, before: Text, n: nat, k: Option<Cache>)
    requires Taken(l) && n <= |LineOf(job.r)|
    ensures Next(c, At(l, d, Appending(job, before, 0), k), 0, At(l, WriteSome(d, job.r, 0, n), AfterWrite(job, before, n), k))
  {
    var s := At(l, d, Appending(job, before, 0), k);
    Inside(l, d, Appending(job, before, 0), k);
    NeverOut(job, before, n);
    hide Taken, Findable, FileLock.Next, WriteSome, LineOf;
    assert 0 + n <= |LineOf(job.r)|;
    assert AppendStep(s, 0, job, before, 0, s.Go(0, WriteSome(d, job.r, 0, n), AfterWrite(job, before, 0 + n)));
  }

  lemma Finishes(c: Config, l: FileLock.State, d: Disk, job: Job, k: Option<Cache>)
    requires Taken(l) && d.live.Some? && Findable(d)
    ensures Next(c, At(l, d, Written(job), k), 0, At(l, d, Exit, Some(Cache(job.next, d.live.value.ino, |d.live.value.text|))))
  {
    Inside(l, d, Written(job), k);
    hide Taken, Findable, FileLock.Next;
  }

  lemma Fails(c: Config, l: FileLock.State, d: Disk, pc: Pc, k: Option<Cache>)
    requires Taken(l) && !pc.Out?
    ensures var s, s' := At(l, d, pc, k), At(l, d, Exit, None);
      FailStep(s, 0, s') && Happens(c, s, 0, s') && (Next(c, s, 0, s') <==> Findable(d))
  {
    Inside(l, d, pc, k);
    hide Taken, Findable, FileLock.Next, ReadStep, RotateStep, WriteStep;
  }

  // ----- what one process can come to by failing

  /** The first record of a log, and the one after it, of the same event. */
  function FirstJob(c: Config, e: Fields): Job {
    JobFor(c, Head(GENESIS, 0), e)
  }

  function NextJob(c: Config, e: Fields): Job {
    JobFor(c, FirstJob(c, e).next, e)
  }

  /** `whole` is the first record's line, and `torn` the start of the next one's. */
  predicate LinesAre(c: Config, e: Fields, whole: Text, torn: Text) {
    var job, r := FirstJob(c, e), NextJob(c, e).r;
    && whole == LineOf(job.r) && |whole| > 1 && Closed(whole) && RecordsIn(whole) == [Stored(job.r)]
    && |LineOf(r)| > 2 && torn == LineOf(r)[..1] && RecordsIn(torn) == RecordsIn(Repair(torn)) == [] && Closed(Repair(torn))
    && LastHead(Lines(whole)) == Some(job.next)
    && LastHead(Lines(torn)).None? && LastHead(Lines(Repair(torn))).None?
  }

  lemma LineIsWhole(r: Record)
    ensures |LineOf(r)| > 1 && Closed(LineOf(r)) && LineOf(r) <= LineOf(r)
  {
    LineIsLong(r);
    assert LineOf(r)[..|LineOf(r)|] == LineOf(r);
    hide Stringify;
  }

  lemma FirstJobIs(c: Config, e: Fields)
    ensures var job := FirstJob(c, e); var r := MakeRecord(c.sha, Head(GENESIS, 0), e);
      job.r == r && job.next == Head(HashOf(r), 1)
  {
    hide MakeRecord, HashOf;
  }

  lemma WholeLine(c: Config, e: Fields)
    requires IsEvent(e)
    ensures var job := FirstJob(c, e); var t := LineOf(job.r);
      |t| > 1 && Closed(t) && RecordsIn(t) == [Stored(job.r)] && LastHead(Lines(t)) == Some(job.next)
  {
    var job := FirstJob(c, e);
    var t := LineOf(job.r);
    FirstJobIs(c, e);
    hide FirstJob, JobFor, HashOf, Lookup, WellFormed, SeqOf, Links, MakeRecord, IsEvent, LineOf, Stringify, Stored, RecordsIn, HeadOfRecord, Closed, Lines, LastHead;
    MadeRecordLinks(c.sha, Head(GENESIS, 0), e);
    LineIsWhole(job.r);
    PrefixOfLine(job.r, t);
    LoneHead(t, Stored(job.r));
  }

  lemma TornLine(c: Config, e: Fields)
    requires IsEvent(e)
    ensures var r := NextJob(c, e).r;
      |LineOf(r)| > 2 && RecordsIn(LineOf(r)[..1]) == []
  {
    var r := NextJob(c, e).r;
    MadeRecordLinks(c.sha, FirstJob(c, e).next, e);
    LineIsLong(r);
    hide MakeRecord, IsEvent, LineOf, Stored, RecordsIn, HeadOfRecord, WellFormed, SeqOf, Links;
    PrefixOfLine(r, LineOf(r)[..1]);
  }

  lemma SuchLines(c: Config, e: Fields)
    requires IsEvent(e)
    ensures LinesAre(c, e, LineOf(FirstJob(c, e).r), LineOf(NextJob(c, e).r)[..1])
  {
    WholeLine(c, e);
    TornLine(c, e);
    hide FirstJob, NextJob, LineOf, RecordsIn, Lines, LastHead, IsEvent, Stored, Repair, Closed;
    var torn := LineOf(NextJob(c, e).r)[..1];
    RepairKeeps(torn);
    NoHead(torn);
    NoHead(Repair(torn));
  }

  /** A whole line in a new file. */
  function Grown(c: Config, e: Fields, d: Disk): Disk {
    var r := FirstJob(c, e).r;
    Disk(Some(File(d.nextIno, LineOf(r))), d.rotated, d.nextIno + 1, d.history + [Stored(r)])
  }

  function CacheAfter(c: Config, e: Fields, d: Disk): Cache {
    Cache(FirstJob(c, e).next, d.nextIno, |LineOf(FirstJob(c, e).r)|)
  }

  lemma WholeWrite(d: Disk, r: Record)
    requires d.live.None?
    ensures WriteSome(d, r, 0, |LineOf(r)|) == Disk(Some(File(d.nextIno, LineOf(r))), d.rotated, d.nextIno + 1, d.history + [Stored(r)])
  {
    LineIsLong(r);
    hide LineOf, Stored;
    assert LineOf(r)[0..0 + |LineOf(r)|] == LineOf(r);
  }

  lemma NothingToRead(c: Config, e: Fields, d: Disk, whole: Text, torn: Text)
    requires LinesAre(c, e, whole, torn) && d.live.None?
    ensures RepairLive(d) == d && HeadIn(d.live).None? && !Full(c, d) && Findable(Grown(c, e, d))
  {
    hide LineOf, Stored, RecordsIn, FirstJob, NextJob, Lines, LastHead;
  }

  /** With no head to be found, a record starts the chain from the genesis. */
  lemma StartsOver(c: Config, e: Fields, d: Disk, whole: Text, torn: Text)
    requires IsEvent(e) && LinesAre(c, e, whole, torn)
    requires d.live.None? && HeadIn(Newest(d.rotated)).None? && RepairNewest(d) == d
    ensures Cycle(c, d, None, Grown(c, e, d), Some(CacheAfter(c, e, d)))
  {
    NothingToRead(c, e, d, whole, torn);
    hide IsEvent, Reaches, Taken, HeadIn, Newest, RepairLive, RepairNewest, LinesAre, Full, Findable, Grown, CacheAfter;
    forall l | Taken(l) ensures Reaches(c, At(l, d, Entered, None), At(l, Grown(c, e, d), Exit, Some(CacheAfter(c, e, d)))) {
      ReadsNothing(c, l, d);
      StartsFresh(c, e, l, d);
      Then(c, At(l, d, Entered, None), At(l, d, Ready(Head(GENESIS, 0)), None), At(l, Grown(c, e, d), Exit, Some(CacheAfter(c, e, d))));
    }
  }

  lemma ReadsNothing(c: Config, l: FileLock.State, d: Disk)
    requires Taken(l) && HeadIn(d.live).None? && HeadIn(Newest(d.rotated)).None? && RepairLive(d) == d && RepairNewest(d) == d
    ensures Reaches(c, At(l, d, Entered, None), At(l, d, Ready(Head(GENESIS, 0)), None))
  {
    hide Reaches, Next, Taken, HeadIn, Newest, RepairLive, RepairNewest;
    ReadsLive(c, l, d, None);
    ByStep(c, At(l, d, Entered, None), At(l, d, LiveMissed, None));
    ReadsNewest(c, l, d, None);
    OneMore(c, At(l, d, Entered, None), At(l, d, LiveMissed, None), At(l, d, Ready(Head(GENESIS, 0)), None));
  }

  lemma StartsFresh(c: Config, e: Fields, l: FileLock.State, d: Disk)
    requires Taken(l) && IsEvent(e) && d.live.None? && !Full(c, d) && Findable(Grown(c, e, d))
    ensures Reaches(c, At(l, d, Ready(Head(GENESIS, 0)), None), At(l, Grown(c, e, d), Exit, Some(CacheAfter(c, e, d))))
  {
    var job := FirstJob(c, e);
    WholeWrite(d, job.r);
    hide Reaches, Next, Taken, LineOf, Findable, Full, IsEvent, JobFor, WriteSome;
    Starts(c, l, d, Head(GENESIS, 0), e, None);
    ByStep(c, At(l, d, Ready(Head(GENESIS, 0)), None), At(l, d, Checking(job), None));
    WritesAll(c, l, d, job, Grown(c, e, d));
    Then(c, At(l, d, Ready(Head(GENESIS, 0)), None), At(l, d, Checking(job), None), At(l, Grown(c, e, d), Exit, Some(CacheAfter(c, e, d))));
  }

  lemma WritesAll(c: Config, l: FileLock.State, d: Disk, job: Job, d': Disk)
    requires Taken(l) && d.live.None? && d' == WriteSome(d, job.r, 0, |LineOf(job.r)|) && Findable(d')
    ensures d'.live.Some?
    ensures Reaches(c, At(l, d, Checking(job), None), At(l, d', Exit, Some(Cache(job.next, d'.live.value.ino, |d'.live.value.text|))))
  {
    var s := At(l, d, Checking(job), None);
    hide Reaches, Next, Taken, LineOf, Findable;
    Opens(c, l, d, job, None);
    ByStep(c, s, At(l, d, Appending(job, [], 0), None));
    Appends(c, l, d, job, [], |LineOf(job.r)|, None);
    OneMore(c, s, At(l, d, Appending(job, [], 0), None), At(l, d', Written(job), None));
    Finishes(c, l, d', job, None);
    OneMore(c, s, At(l, d', Written(job), None), At(l, d', Exit, Some(Cache(job.next, d'.live.value.ino, |d'.live.value.text|))));
  }

  // ----- the run

  function Segment1(c: Config, e: Fields): File {
    File(0, LineOf(FirstJob(c, e).r))
  }

  function History1(c: Config, e: Fields): seq<Record> {
    [Stored(FirstJob(c, e).r)]
  }

  /** After the first record; after a rotation and a torn one; after a rotation and nothing. */
  function AfterFirst(c: Config, e: Fields): Disk {
    Disk(Some(Segment1(c, e)), map[], 1, History1(c, e))
  }

  function AfterTorn(c: Config, e: Fields, torn: Text): Disk {
    Disk(Some(File(1, torn)), map[1 := Segment1(c, e)], 2, History1(c, e))
  }

  function AfterNothing(c: Config, e: Fields, torn: Text): Disk {
    Disk(None, map[1 := File(1, torn), 2 := Segment1(c, e)], 2, History1(c, e))
  }

  function NoneMoved(c: Config, e: Fields): Disk {
    Disk(None, map[1 := Segment1(c, e)], 1, History1(c, e))
  }

  lemma RotatesInto(c: Config, l: FileLock.State, d: Disk, h: Head, e: Fields, k: Option<Cache>, d': Disk)
    requires Taken(l) && IsEvent(e) && c.maxFiles == 2 && Full(c, d) && 2 !in d.rotated
    requires d' == MoveAside(d.(rotated := Renamed(d.rotated, 1)))
    ensures Reaches(c, At(l, d, Ready(h), k), At(l, d', Checking(JobFor(c, h, e)), k))
  {
    var s, job := At(l, d, Ready(h), k), JobFor(c, h, e);
    var d1 := d.(rotated := Renamed(d.rotated, 1));
    assert DropOldest(c, d) == d by { assert d.rotated - {2} == d.rotated; }
    hide Reaches, Next, Taken, IsEvent, JobFor, DropOldest, Renamed;
    Starts(c, l, d, h, e, k);
    ByStep(c, s, At(l, d, Shift(job, 1), k));
    Shifts(c, l, d, job, 1, k);
    OneMore(c, s, At(l, d, Shift(job, 1), k), At(l, d1, Shift(job, 0), k));
    Shifts(c, l, d1, job, 0, k);
    OneMore(c, s, At(l, d1, Shift(job, 0), k), At(l, d', Checking(job), k));
  }

  lemma FirstMoved(c: Config, e: Fields)
    requires c.maxBytes == 1 && |LineOf(FirstJob(c, e).r)| > 1
    ensures var d := AfterFirst(c, e);
      && Full(c, d) && 2 !in d.rotated && NoneMoved(c, e) == MoveAside(d.(rotated := Renamed(d.rotated, 1)))
      && Hit(d, Some(CacheAfter(c, e, AuditLog.Start.disk)))
  {
    hide LineOf, Stored;
    var none: map<nat, File> := map[];
    assert Renamed(none, 1) == none;
  }

  lemma TornWrite(c: Config, e: Fields, torn: Text)
    requires LinesAre(c, e, LineOf(FirstJob(c, e).r), torn)
    ensures var job, d := NextJob(c, e), NoneMoved(c, e);
      && WriteSome(d, job.r, 0, 1) == AfterTorn(c, e, torn) && AfterWrite(job, [], 1) == Appending(job, [], 1)
      && Findable(AfterTorn(c, e, torn))
  {
    hide LineOf, Stored, RecordsIn, Lines, LastHead, FirstJob, NextJob;
    assert LineOf(NextJob(c, e).r)[0..0 + 1] == torn;
  }

  /** The second record: its file rotates, and its write fails after one unit. */
  lemma FailsTorn(c: Config, e: Fields, torn: Text)
    requires IsEvent(e) && c.maxBytes == 1 && c.maxFiles == 2 && LinesAre(c, e, LineOf(FirstJob(c, e).r), torn)
    ensures Cycle(c, AfterFirst(c, e), Some(CacheAfter(c, e, AuditLog.Start.disk)), AfterTorn(c, e, torn), None)
  {
    var k, job := CacheAfter(c, e, AuditLog.Start.disk), NextJob(c, e);
    var d, m, d' := AfterFirst(c, e), NoneMoved(c, e), AfterTorn(c, e, torn);
    FirstMoved(c, e);
    TornWrite(c, e, torn);
    assert k.head == FirstJob(c, e).next && TextOf(m.live) == [] && 1 <= |LineOf(job.r)|;
    hide Reaches, Taken, IsEvent, FirstJob, JobFor, LinesAre, LineOf, Findable, Full, Hit, AfterFirst, NoneMoved, AfterTorn, WriteSome, AfterWrite, TextOf, CacheAfter, Renamed, MoveAside;
    forall l | Taken(l) ensures Reaches(c, At(l, d, Entered, Some(k)), At(l, d', Exit, None)) {
      UsesCache(c, l, d, k);
      ByStep(c, At(l, d, Entered, Some(k)), At(l, d, Ready(k.head), Some(k)));
      RotatesInto(c, l, d, k.head, e, Some(k), m);
      Then(c, At(l, d, Entered, Some(k)), At(l, d, Ready(k.head), Some(k)), At(l, m, Checking(job), Some(k)));
      WriteFails(c, l, m, job, Some(k), d');
      Then(c, At(l, d, Entered, Some(k)), At(l, m, Checking(job), Some(k)), At(l, d', Exit, None));
    }
  }

  lemma WriteFails(c: Config, l: FileLock.State, d: Disk, job: Job, k: Option<Cache>, d': Disk)
    requires Taken(l) && TextOf(d.live) == [] && 1 <= |LineOf(job.r)| && d' == WriteSome(d, job.r, 0, 1)
    requires AfterWrite(job, [], 1) == Appending(job, [], 1) && Findable(d')
    ensures Reaches(c, At(l, d, Checking(job), k), At(l, d', Exit, None))
  {
    var s := At(l, d, Checking(job), k);
    hide Reaches, Next, Taken, LineOf, Findable, WriteSome, AfterWrite, TextOf;
    Opens(c, l, d, job, k);
    ByStep(c, s, At(l, d, Appending(job, [], 0), k));
    Appends(c, l, d, job, [], 1, k);
    OneMore(c, s, At(l, d, Appending(job, [], 0), k), At(l, d', Appending(job, [], 1), k));
    Fails(c, l, d', Appending(job, [], 1), k);
    OneMore(c, s, At(l, d', Appending(job, [], 1), k), At(l, d', Exit, None));
  }

  /** What the third record finds, and what it moves aside. */
  lemma TornMoved(c: Config, e: Fields, torn: Text)
    requires c.maxBytes == 1 && LinesAre(c, e, LineOf(FirstJob(c, e).r), torn)
    ensures var d, d' := AfterTorn(c, e, torn), AfterTorn(c, e, Repair(torn));
      && HeadIn(d.live).None? && RepairLive(d) == d' && RepairNewest(d') == d'
      && HeadIn(Newest(d'.rotated)) == Some(FirstJob(c, e).next)
      && Full(c, d') && 2 !in d'.rotated
      && AfterNothing(c, e, Repair(torn)) == MoveAside(d'.(rotated := Renamed(d'.rotated, 1)))
  {
    hide LineOf, Stored, RecordsIn, Lines, LastHead, FirstJob, NextJob, Closed;
    var r := map[1 := Segment1(c, e)];
    assert r[1 := r[1]] == r;
    assert Renamed(r, 1)[1 := File(1, Repair(torn))] == map[1 := File(1, Repair(torn)), 2 := Segment1(c, e)];
  }

  /** The third record: its file rotates as well, torn as it is. */
  lemma RotatesTorn(c: Config, e: Fields, torn: Text, l: FileLock.State)
    requires IsEvent(e) && c.maxBytes == 1 && c.maxFiles == 2 && LinesAre(c, e, LineOf(FirstJob(c, e).r), torn) && Taken(l)
    ensures Reaches(c, At(l, AfterTorn(c, e, torn), Entered, None), At(l, AfterNothing(c, e, Repair(torn)), Checking(NextJob(c, e)), None))
  {
    var h, job := FirstJob(c, e).next, NextJob(c, e);
    var d, d1, d' := AfterTorn(c, e, torn), AfterTorn(c, e, Repair(torn)), AfterNothing(c, e, Repair(torn));
    TornMoved(c, e, torn);
    hide Reaches, Next, Taken, IsEvent, FirstJob, JobFor, LinesAre, LineOf, Full, AfterTorn, AfterNothing, HeadIn, Newest, RepairLive, RepairNewest, Renamed, MoveAside, Repair;
    var s := At(l, d, Entered, None);
    ReadsLive(c, l, d, None);
    ByStep(c, s, At(l, d1, LiveMissed, None));
    ReadsNewest(c, l, d1, None);
    OneMore(c, s, At(l, d1, LiveMissed, None), At(l, d1, Ready(h), None));
    RotatesInto(c, l, d1, h, e, None, d');
    Then(c, s, At(l, d1, Ready(h), None), At(l, d', Checking(job), None));
  }

  /** Now no head is to be found. */
  lemma NothingFound(c: Config, e: Fields, torn: Text)
    requires LinesAre(c, e, LineOf(FirstJob(c, e).r), torn)
    ensures var d := AfterNothing(c, e, Repair(torn));
      d.live.None? && HeadIn(Newest(d.rotated)).None? && RepairNewest(d) == d && !Findable(d)
  {
    hide LineOf, Stored, RecordsIn, Lines, LastHead, FirstJob, NextJob, Closed;
    var r := AfterNothing(c, e, Repair(torn)).rotated;
    assert r[1 := r[1]] == r;
  }

  /** The first record again, after itself: two records, the second of which names the genesis. */
  lemma TwiceFirst(c: Config, e: Fields, torn: Text)
    requires IsEvent(e) && c.maxFiles == 2 && LinesAre(c, e, LineOf(FirstJob(c, e).r), torn)
    ensures var r := Stored(FirstJob(c, e).r);
      OnDisk(c, Grown(c, e, AfterNothing(c, e, Repair(torn)))) == [r, r]
  {
    hide LineOf, Stored, RecordsIn, Lines, LastHead, FirstJob, NextJob, Closed, Repair;
    var f := Segment1(c, e);
    var r := map[1 := File(1, Repair(torn)), 2 := f];
    assert RotatedRecords(r, 0) == [];
    assert RotatedRecords(r, 1) == RecordsIn(Repair(torn)) + [] == [];
    assert RotatedRecords(r, 2) == RecordsIn(f.text) + [] == RecordsIn(f.text);
  }

  lemma TwiceIsBroken(sha: Text -> Text, r: Record)
    requires Links(sha, r, GENESIS) && HashOf(r) != GENESIS
    ensures !Verdict(sha, [r, r], FirstPrev([r, r])).valid
  {
    FirstNames(sha, [r, r], GENESIS);
    assert [r, r][..1] == [r] && [r, r][..0] == [];
    hide HashOf, HashRecord, EventOf, Verified;
    ChainIffVerified(sha, [r, r], GENESIS);
    assert !Links(sha, [r, r][1], HeadAfter([r, r][..1], GENESIS));
  }

  lemma FirstIsBroken(c: Config, e: Fields)
    requires IsEvent(e) && HashOf(FirstJob(c, e).r) != GENESIS
    ensures var r := Stored(FirstJob(c, e).r); !Verdict(c.sha, [r, r], FirstPrev([r, r])).valid
  {
    MadeRecordLinks(c.sha, Head(GENESIS, 0), e);
    hide Links, HashOf, Stored, MakeRecord, Verdict, FirstPrev;
    TwiceIsBroken(c.sha, Stored(FirstJob(c, e).r));
  }

  /** From no files to process 0, with nothing written. */
  lemma Begins(c: Config)
    ensures Free(FileLock.Start.To(0, FileLock.Idle))
    ensures Reaches(c, AuditLog.Start, At(FileLock.Start.To(0, FileLock.Idle), AuditLog.Start.disk, Out, None))
  {
    hide Reaches;
    ByStep(c, AuditLog.Start, At(FileLock.Start.To(0, FileLock.Idle), AuditLog.Start.disk, Out, None));
  }

  lemma FirstGrown(c: Config, e: Fields)
    ensures Grown(c, e, AuditLog.Start.disk) == AfterFirst(c, e)
    ensures var d := AuditLog.Start.disk; d.live.None? && HeadIn(Newest(d.rotated)).None? && RepairNewest(d) == d
  {
    hide LineOf, Stored;
  }

  /** Three records, as far as the third one's rotation. */
  lemma RunsToRotation(c: Config, e: Fields, torn: Text)
    requires IsEvent(e) && c.maxBytes == 1 && c.maxFiles == 2 && LinesAre(c, e, LineOf(FirstJob(c, e).r), torn)
    ensures exists l :: Taken(l) && Reaches(c, AuditLog.Start, At(l, AfterNothing(c, e, Repair(torn)), Checking(NextJob(c, e)), None))
  {
    var l0, d0, k := FileLock.Start.To(0, FileLock.Idle), AuditLog.Start.disk, CacheAfter(c, e, AuditLog.Start.disk);
    var s0 := At(l0, d0, Out, None);
    Begins(c);
    FirstGrown(c, e);
    hide Reaches, Cycle, Taken, Free, IsEvent, LinesAre, FirstJob, NextJob, CacheAfter, AfterFirst, AfterTorn, AfterNothing, LineOf, Repair, Grown, HeadIn, Newest, RepairNewest;
    StartsOver(c, e, d0, LineOf(FirstJob(c, e).r), torn);
    AroundOnce(c, l0, d0, None, AfterFirst(c, e), Some(k));
    var l1 :| Free(l1) && Reaches(c, s0, At(l1, AfterFirst(c, e), Out, Some(k)));
    Then(c, AuditLog.Start, s0, At(l1, AfterFirst(c, e), Out, Some(k)));
    FailsTorn(c, e, torn);
    AroundOnce(c, l1, AfterFirst(c, e), Some(k), AfterTorn(c, e, torn), None);
    var l2 :| Free(l2) && Reaches(c, At(l1, AfterFirst(c, e), Out, Some(k)), At(l2, AfterTorn(c, e, torn), Out, None));
    Then(c, AuditLog.Start, At(l1, AfterFirst(c, e), Out, Some(k)), At(l2, AfterTorn(c, e, torn), Out, None));
    Enters(c, l2, AfterTorn(c, e, torn), None);
    var l3 :| Taken(l3) && Reaches(c, At(l2, AfterTorn(c, e, torn), Out, None), At(l3, AfterTorn(c, e, torn), Entered, None));
    Then(c, AuditLog.Start, At(l2, AfterTorn(c, e, torn), Out, None), At(l3, AfterTorn(c, e, torn), Entered, None));
    RotatesTorn(c, e, torn, l3);
    Then(c, AuditLog.Start, At(l3, AfterTorn(c, e, torn), Entered, None), At(l3, AfterNothing(c, e, Repair(torn)), Checking(NextJob(c, e)), None));
  }

  /** And one more record, after it failed there. */
  lemma RunsToFork(c: Config, e: Fields, torn: Text, l: FileLock.State)
    requires IsEvent(e) && c.maxBytes == 1 && c.maxFiles == 2 && LinesAre(c, e, LineOf(FirstJob(c, e).r), torn) && Taken(l)
    ensures var d := AfterNothing(c, e, Repair(torn));
      exists t :: Reaches(c, At(l, d, Exit, None), t) && t.disk == Grown(c, e, d)
  {
    var d := AfterNothing(c, e, Repair(torn));
    var k := CacheAfter(c, e, d);
    NothingFound(c, e, torn);
    hide Reaches, Cycle, Taken, Free, IsEvent, LinesAre, FirstJob, NextJob, CacheAfter, AfterNothing, LineOf, Repair, Grown, HeadIn, Newest, RepairNewest;
    StartsOver(c, e, d, LineOf(FirstJob(c, e).r), torn);
    Leaves(c, l, d, None);
    var m :| Free(m) && Reaches(c, At(l, d, Exit, None), At(m, d, Out, None));
    AroundOnce(c, m, d, None, Grown(c, e, d), Some(k));
    var n :| Free(n) && Reaches(c, At(m, d, Out, None), At(n, Grown(c, e, d), Out, Some(k)));
    Then(c, At(l, d, Exit, None), At(m, d, Out, None), At(n, Grown(c, e, d), Out, Some(k)));
  }

  /** One process, four records of any event, and two failed writes: the one that tears a record in a
      file at its limit costs nothing, the one that follows the rotation of that file loses the head,
      and after the next record the log no longer verifies. */
  lemma StoppedRotationForks(c: Config, e: Fields)
    requires IsEvent(e) && c.maxBytes == 1 && c.maxFiles == 2 && HashOf(MakeRecord(c.sha, Head(GENESIS, 0), e)) != GENESIS
    ensures exists s, s', t :: Reaches(c, AuditLog.Start, s) && Fatal(c, s, s') && Reaches(c, s', t) && Rejected(c, t.disk)
  {
    var torn := LineOf(NextJob(c, e).r)[..1];
    SuchLines(c, e);
    hide Reaches, Taken, LinesAre, IsEvent, LineOf;
    RunsToRotation(c, e, torn);
    var d := AfterNothing(c, e, Repair(torn));
    var l :| Taken(l) && Reaches(c, AuditLog.Start, At(l, d, Checking(NextJob(c, e)), None));
    var s, s' := At(l, d, Checking(NextJob(c, e)), None), At(l, d, Exit, None);
    LosesIt(c, e, torn, l);
    RunsToFork(c, e, torn, l);
    var t :| Reaches(c, s', t) && t.disk == Grown(c, e, d);
    TwiceFirst(c, e, torn);
    FirstIsBroken(c, e);
    hide FirstJob, NextJob, AfterNothing, Grown, Fatal, OnDisk, Verdict, Stored;
    assert Rejected(c, t.disk);
  }

  lemma LosesIt(c: Config, e: Fields, torn: Text, l: FileLock.State)
    requires LinesAre(c, e, LineOf(FirstJob(c, e).r), torn) && Taken(l)
    ensures var d := AfterNothing(c, e, Repair(torn));
      Fatal(c, At(l, d, Checking(NextJob(c, e)), None), At(l, d, Exit, None))
  {
    var d := AfterNothing(c, e, Repair(torn));
    NothingFound(c, e, torn);
    hide Taken, LinesAre, AfterNothing, Findable, FileLock.Next, Happens, NextJob, FirstJob, LineOf;
    Fails(c, l, d, Checking(NextJob(c, e)), None);
    Inside(l, d, Checking(NextJob(c, e)), None);
  }

  /** Process 0 fails, and the head is lost. */
  ghost predicate Fatal(c: Config, s: State, s': State) {
    s.Holds(0) && FailStep(s, 0, s') && LosesHead(s, 0, s')
  }

  predicate Rejected(c: Config, d: Disk) {
    !Verdict(c.sha, OnDisk(c, d), FirstPrev(OnDisk(c, d))).valid
  }
}
