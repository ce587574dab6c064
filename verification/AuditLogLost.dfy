/** What comes after `AuditLog.LosesHead`, on every run: nothing shows until the next record is
    written; that one starts over from the genesis, and from then on verification rejects the log,
    exactly if a record was still on disk. */
module AuditLogLost {
  import opened Wrappers
  import opened Texts
  import opened Json
  import opened AuditChain
  import opened AuditFile
  import opened AuditLog
  import opened AuditLogProof
  import opened AuditLogRuns
  import FileLock
  import JsonCanonical

  // ----- the invariant of a log whose head is lost

  predicate LostDisk(c: Config, d: Disk) {
    && Consistent(c, d) && !Findable(d)
    && (forall i :: i in d.rotated ==> 1 <= i <= c.maxFiles)
    && (d.live.Some? ==> d.live.value.ino < d.nextIno)
  }

  /** A record that starts over. */
  ghost predicate OffJob(c: Config, job: Job) {
    exists e :: IsEvent(e) && job == JobFor(c, Head(GENESIS, 0), e)
  }

  ghost predicate LostPc(c: Config, d: Disk, pc: Pc) {
    match pc
    case LiveMissed => LiveClosed(d)
    case Ready(head) => LiveClosed(d) && head == Head(GENESIS, 0)
    case Shift(job, i) => LiveClosed(d) && OffJob(c, job) && d.live.Some? && i < c.maxFiles && i + 1 !in d.rotated
    case Checking(job) => LiveClosed(d) && OffJob(c, job)
    case Appending(job, before, done) => LineOk(d, job.r, before, done) && done < |LineOf(job.r)| - 1 && OffJob(c, job)
    case Written(_) => false
    case _ => true
  }

  /** The live file is not the one the cache was made of. */
  predicate NoHit(d: Disk, k: Cache) {
    k.ino < d.nextIno && (d.live.Some? ==> d.live.value.ino != k.ino)
  }

  predicate NoHits(s: State) {
    forall p :: p in s.clients && s.clients[p].cached.Some? ==> NoHit(s.disk, s.clients[p].cached.value)
  }

  ghost predicate LostPcs(c: Config, s: State) {
    forall p :: p in s.clients && s.lock.Live(p) ==> LostPc(c, s.disk, s.clients[p].pc)
  }

  ghost predicate LostInv(c: Config, s: State) {
    FileLock.Inv(s.lock) && ClientsOk(s) && LostDisk(c, s.disk) && NoHits(s) && LostPcs(c, s)
  }

  // ----- it holds once the head is lost

  lemma CacheMisses(d: Disk, k: Cache)
    requires CacheOk(d, k) && !Findable(d)
    ensures NoHit(d, k)
  {
    hide LiveRecords, Newest, TrueHead;
  }

  lemma LosersLeave(c: Config, s: State, p: Pid, s': State)
    requires Inv(c, s) && Happens(c, s, p, s') && LosesHead(s, p, s')
    ensures s'.disk == s.disk && FileLock.Inv(s'.lock) && ClientsOk(s')
    ensures forall q :: q in s'.clients && s'.lock.Live(q) ==> s'.clients[q].pc.Out? || s'.clients[q].pc.Exit?
    ensures forall q :: q in s'.clients && s'.clients[q].cached.Some? ==> q in s.clients && s'.clients[q].cached == s.clients[q].cached
  {
    if !Carries(s.clients[p].pc) { HolderFinds(c, s, p); }
    assert FileLock.Inv(s.lock) && ClientsOk(s);
    hide Inv, Findable;
    if LockStep(s, p, s') {
      LosersDie(s, p, s');
    } else {
      LosersFail(c, s, p, s');
    }
  }

  lemma OthersAreOut(s: State, p: Pid)
    requires FileLock.Inv(s.lock) && ClientsOk(s) && s.Holds(p)
    ensures forall q :: q != p && q in s.clients && s.lock.Live(q) ==> s.clients[q].pc.Out?
  {
    hide FileLock.Inv, ClientsOk;
    forall q | q != p && q in s.clients && s.lock.Live(q) ensures s.clients[q].pc.Out? {
      OthersOutside(s, p, q);
    }
  }

  lemma LosersDie(s: State, p: Pid, s': State)
    requires FileLock.Inv(s.lock) && ClientsOk(s) && LockStep(s, p, s') && LosesHead(s, p, s') && Carries(s.clients[p].pc)
    ensures s'.disk == s.disk && FileLock.Inv(s'.lock) && ClientsOk(s')
    ensures forall q :: q in s'.clients && s'.lock.Live(q) ==> s'.clients[q].pc.Out? || s'.clients[q].pc.Exit?
    ensures forall q :: q in s'.clients && s'.clients[q].cached.Some? ==> q in s.clients && s'.clients[q].cached == s.clients[q].cached
  {
    FileLock.StepKeepsInv(s.lock, p, s'.lock);
    FileLock.HappensProcEffect(s.lock, p, s'.lock);
    LockStepKeepsClients(s, p, s');
    OthersAreOut(s, p);
    hide FileLock.Inv, FileLock.Next, ClientsOk, Findable, LineOf;
  }

  lemma LosersFail(c: Config, s: State, p: Pid, s': State)
    requires FileLock.Inv(s.lock) && ClientsOk(s) && HolderStep(c, s, p, s') && LosesHead(s, p, s') && Carries(s.clients[p].pc)
    ensures s'.disk == s.disk && FileLock.Inv(s'.lock) && ClientsOk(s')
    ensures forall q :: q in s'.clients && s'.lock.Live(q) ==> s'.clients[q].pc.Out? || s'.clients[q].pc.Exit?
    ensures forall q :: q in s'.clients && s'.clients[q].cached.Some? ==> q in s.clients && s'.clients[q].cached == s.clients[q].cached
  {
    OthersAreOut(s, p);
    hide FileLock.Inv, Findable, LineOf, WriteSome, JobFor, IsEvent, FileLock.HeldBy;
  }

  lemma LostDiskOf(c: Config, d: Disk)
    requires DiskOk(c, d) && !Findable(d)
    ensures LostDisk(c, d)
  {
    hide GoodHistory, OnDisk, Findable;
  }

  lemma AllOutside(c: Config, s: State)
    requires forall q :: q in s.clients && s.lock.Live(q) ==> s.clients[q].pc.Out? || s.clients[q].pc.Exit?
    ensures LostPcs(c, s)
  {
  }

  lemma LosersDisk(c: Config, s: State, p: Pid, s': State)
    requires Inv(c, s) && LosesHead(s, p, s')
    ensures DiskOk(c, s.disk) && CachesOk(s) && !Findable(s.disk)
  {
    hide DiskOk, CachesOk, FileLock.Inv, ClientsOk, PcsOk, HeadKept, Findable;
  }

  lemma NoneHits(s: State, s': State)
    requires CachesOk(s) && !Findable(s.disk) && s'.disk == s.disk
    requires forall q :: q in s'.clients && s'.clients[q].cached.Some? ==> q in s.clients && s'.clients[q].cached == s.clients[q].cached
    ensures NoHits(s')
  {
    hide CacheOk, NoHit, Findable;
    forall q | q in s'.clients && s'.clients[q].cached.Some? ensures NoHit(s'.disk, s'.clients[q].cached.value) {
      CacheMisses(s.disk, s.clients[q].cached.value);
    }
  }

  lemma LostAtFirst(c: Config, s: State, p: Pid, s': State)
    requires Inv(c, s) && Happens(c, s, p, s') && LosesHead(s, p, s')
    ensures LostInv(c, s')
  {
    hide Inv, Happens, LosesHead, FileLock.Inv, ClientsOk, Findable, CachesOk, DiskOk, LostDisk, NoHits, LostPcs;
    LosersLeave(c, s, p, s');
    LosersDisk(c, s, p, s');
    LostDiskOf(c, s.disk);
    NoneHits(s, s');
    AllOutside(c, s');
  }

  // ----- and until the next record

  /** What a step that writes no record must establish. */
  ghost predicate LostKeeps(c: Config, s: State, p: Pid, s': State)
    requires p in s.clients
  {
    && s'.lock == s.lock && p in s'.clients && s'.clients == s.clients[p := s'.clients[p]]
    && LiveStays(s.disk, s'.disk) && LostDisk(c, s'.disk) && s'.disk.history == s.disk.history
    && !s'.clients[p].pc.Out? && LostPc(c, s'.disk, s'.clients[p].pc)
    && (s'.clients[p].cached == s.clients[p].cached || s'.clients[p].cached.None?)
  }

  /** The live file is the same one, gone, or new. */
  predicate LiveStays(d: Disk, d': Disk) {
    && d.nextIno <= d'.nextIno
    && (d'.live.Some? ==> (d.live.Some? && d'.live.value.ino == d.live.value.ino) || d'.live.value.ino == d.nextIno)
  }

  lemma NoHitStays(d: Disk, d': Disk, k: Cache)
    requires NoHit(d, k) && LiveStays(d, d')
    ensures NoHit(d', k)
  {
  }

  lemma LostKeepsInv(c: Config, s: State, p: Pid, s': State)
    requires LostInv(c, s) && s.Holds(p) && LostKeeps(c, s, p, s')
    ensures LostInv(c, s')
  {
    hide LostDisk, LostPc, LiveStays, NoHit, FileLock.Inv;
    assert s'.Holds(p);
    forall q | q in s'.clients && s'.clients[q].cached.Some? ensures NoHit(s'.disk, s'.clients[q].cached.value) {
      NoHitStays(s.disk, s'.disk, s.clients[q].cached.value);
    }
    forall q | q in s'.clients && s'.lock.Live(q) ensures LostPc(c, s'.disk, s'.clients[q].pc) {
      if q != p { OutIsLost(c, s, p, q, s'.disk); }
    }
  }

  lemma OutIsLost(c: Config, s: State, p: Pid, q: Pid, d: Disk)
    requires FileLock.Inv(s.lock) && ClientsOk(s) && s.Holds(p) && q != p && q in s.clients && s.lock.Live(q)
    ensures LostPc(c, d, s.clients[q].pc)
  {
    hide FileLock.Inv, ClientsOk;
    OthersOutside(s, p, q);
  }

  lemma LostGoes(c: Config, s: State, p: Pid, d: Disk, pc: Pc)
    requires s.Holds(p) && LiveStays(s.disk, d) && LostDisk(c, d) && d.history == s.disk.history && !pc.Out? && LostPc(c, d, pc)
    ensures LostKeeps(c, s, p, s.Go(p, d, pc))
  {
    hide LiveStays, LostDisk, LostPc;
  }

  lemma LostLeaves(c: Config, s: State, p: Pid)
    requires s.Holds(p) && LostDisk(c, s.disk)
    ensures LostKeeps(c, s, p, s.Leave(p, None))
  {
    hide LostDisk;
  }

  lemma LostHolder(c: Config, s: State, p: Pid)
    requires LostInv(c, s) && s.Holds(p)
    ensures LostDisk(c, s.disk) && LostPc(c, s.disk, s.clients[p].pc)
    ensures s.clients[p].cached.Some? ==> NoHit(s.disk, s.clients[p].cached.value)
  {
    hide LostDisk, LostPc, NoHit, FileLock.Inv, ClientsOk;
  }

  // ----- reading

  lemma NothingLive(c: Config, d: Disk)
    requires LostDisk(c, d)
    ensures HeadIn(d.live).None? && HeadIn(Newest(d.rotated)).None?
  {
    hide RecordsIn, LastHead, Lines, GoodHistory, OnDisk;
    if d.live.Some? { NoHead(d.live.value.text); }
    if 1 in d.rotated { NoHead(d.rotated[1].text); }
  }

  lemma LostRepairLive(c: Config, d: Disk)
    requires LostDisk(c, d)
    ensures var d' := RepairLive(d); LostDisk(c, d') && LiveStays(d, d') && LiveClosed(d') && d'.history == d.history
  {
    if d.live.Some? { RepairKeeps(d.live.value.text); }
    hide GoodHistory, RotatedRecords, RecordsIn, Newest, Closed, Repair;
  }

  lemma LostRepairNewest(c: Config, d: Disk)
    requires LostDisk(c, d)
    ensures var d' := RepairNewest(d); LostDisk(c, d') && LiveStays(d, d') && LiveClosed(d') == LiveClosed(d) && d'.history == d.history
  {
    if 1 in d.rotated {
      RepairedSegment(d.rotated, c.maxFiles);
      RepairKeeps(d.rotated[1].text);
    }
    hide GoodHistory, RotatedRecords, RecordsIn, Closed, Repair;
  }

  lemma LostReads(c: Config, s: State, p: Pid, s': State)
    requires LostInv(c, s) && s.Holds(p) && ReadStep(s, p, s')
    ensures LostKeeps(c, s, p, s')
  {
    var d := s.disk;
    hide LostInv, LostDisk, LiveStays, LiveClosed, RepairLive, RepairNewest, HeadIn, Newest, LostKeeps;
    LostHolder(c, s, p);
    NothingLive(c, d);
    if s.clients[p].pc.Entered? {
      LostRepairLive(c, d);
      LostGoes(c, s, p, RepairLive(d), LiveMissed);
    } else {
      LostRepairNewest(c, d);
      LostGoes(c, s, p, RepairNewest(d), Ready(Head(GENESIS, 0)));
    }
  }

  // ----- rotating

  lemma LostDrop(c: Config, d: Disk)
    requires LostDisk(c, d)
    ensures var d' := DropOldest(c, d);
      LostDisk(c, d') && LiveStays(d, d') && LiveClosed(d') == LiveClosed(d) && d'.history == d.history && c.maxFiles !in d'.rotated
  {
    DroppedSuffix(c, d);
    hide GoodHistory, OnDisk, RecordsIn, IsSuffix, Closed;
  }

  lemma LostRename(c: Config, d: Disk, i: nat)
    requires LostDisk(c, d) && 1 <= i < c.maxFiles && i + 1 !in d.rotated
    ensures var d' := d.(rotated := Renamed(d.rotated, i));
      LostDisk(c, d') && LiveStays(d, d') && LiveClosed(d') == LiveClosed(d) && d'.history == d.history && i !in d'.rotated
  {
    RenamedKeeps(d.rotated, i, c.maxFiles);
    hide GoodHistory, RotatedRecords, RecordsIn, IsSuffix, Closed;
  }

  lemma LostMoveAside(c: Config, d: Disk)
    requires LostDisk(c, d) && d.live.Some? && 1 !in d.rotated
    ensures var d' := MoveAside(d); LostDisk(c, d') && LiveStays(d, d') && LiveClosed(d') && d'.history == d.history
  {
    MovedAside(d.rotated, d.live.value, c.maxFiles);
    hide GoodHistory, RotatedRecords, RecordsIn, IsSuffix, Closed;
    assert OnDisk(c, MoveAside(d)) == OnDisk(c, d);
  }

  lemma LostStarts(c: Config, s: State, p: Pid, s': State)
    requires LostInv(c, s) && s.Holds(p) && s.clients[p].pc.Ready? && RotateStep(c, s, p, s')
    ensures LostKeeps(c, s, p, s')
  {
    var d := s.disk;
    hide LostInv, LostDisk, LiveStays, LiveClosed, LostKeeps, JobFor, IsEvent, DropOldest, Renamed, MoveAside;
    LostHolder(c, s, p);
    var event, rotate :| IsEvent(event) && s' == StartJob(c, s, p, JobFor(c, Head(GENESIS, 0), event), rotate);
    var job := JobFor(c, Head(GENESIS, 0), event);
    assert OffJob(c, job);
    hide OffJob;
    SoundFiles(c, d);
    if rotate && Full(c, d) {
      LostDrop(c, d);
      SameLive(c, d);
      LostGoes(c, s, p, DropOldest(c, d), Shift(job, FirstShift(c)));
    } else {
      LostGoes(c, s, p, d, Checking(job));
    }
  }

  lemma SoundFiles(c: Config, d: Disk)
    requires LostDisk(c, d)
    ensures c.maxFiles >= 1 && LiveStays(d, d) && (d.live.Some? ==> d.live.value.ino < d.nextIno)
  {
    hide GoodHistory, OnDisk, Findable;
  }

  lemma SameLive(c: Config, d: Disk)
    ensures DropOldest(c, d).live == d.live
  {
  }

  lemma LostShifts(c: Config, s: State, p: Pid, s': State)
    requires LostInv(c, s) && s.Holds(p) && s.clients[p].pc.Shift? && RotateStep(c, s, p, s')
    ensures LostKeeps(c, s, p, s')
  {
    var d := s.disk;
    hide LostInv, LostDisk, LiveStays, LiveClosed, LostKeeps, JobFor, StartJob, IsEvent, Renamed, MoveAside, OffJob, LineOf, LineOk;
    var Shift(job, i) := s.clients[p].pc;
    LostHolder(c, s, p);
    if i > 0 {
      LostRename(c, d, i);
      LostGoes(c, s, p, d.(rotated := Renamed(d.rotated, i)), Shift(job, i - 1));
    } else {
      LostMoveAside(c, d);
      LostGoes(c, s, p, MoveAside(d), Checking(job));
    }
  }

  // ----- writing

  lemma LostOpens(c: Config, d: Disk, job: Job)
    requires LostPc(c, d, Checking(job))
    ensures LostPc(c, d, Appending(job, TextOf(d.live), 0))
  {
    hide OffJob;
    LineIsLong(job.r);
    assert TextOf(d.live) + LineOf(job.r)[..0] == TextOf(d.live);
  }

  lemma OffJobFacts(c: Config, job: Job)
    requires OffJob(c, job)
    ensures WellFormed(Obj(job.r)) && JsonCanonical.Clean(Obj(job.r)) == Obj(Stored(job.r)) && Links(c.sha, Stored(job.r), GENESIS)
  {
    hide IsEvent, MakeRecord, WellFormed, JsonCanonical.Clean, Stored, Links, SeqOf, HeadOfRecord, HashOf;
    var e :| IsEvent(e) && job == JobFor(c, Head(GENESIS, 0), e);
    MadeRecordLinks(c.sha, Head(GENESIS, 0), e);
  }

  /** The line goes on, or its record is on disk now. */
  lemma LostWrites(c: Config, d: Disk, job: Job, before: Text, done: nat, k: nat)
    requires LostDisk(c, d) && LostPc(c, d, Appending(job, before, done)) && done + k <= |LineOf(job.r)|
    ensures var d' := WriteSome(d, job.r, done, k);
      && LiveStays(d, d')
      && (done + k < |LineOf(job.r)| - 1 ==>
            d'.history == d.history && LostDisk(c, d') && LostPc(c, d', Appending(job, before, done + k)))
      && (done + k >= |LineOf(job.r)| - 1 ==>
            d'.history == d.history + [Stored(job.r)] && OnDisk(c, d') == OnDisk(c, d) + [Stored(job.r)])
  {
    hide LostDisk, OffJob, LineOf, LineOk, WriteSome, Stored, WellFormed, JsonCanonical.Clean, Links, OnDisk, LiveStays, LiveClosed, LiveRecords;
    var d' := WriteSome(d, job.r, done, k);
    SoundFiles(c, d);
    LiveInos(d, job.r, done, k);
    OffJobFacts(c, job);
    WrittenFile(d, job.r, before, done, k);
    RecordsGrow(d, job.r, before, done, k);
    if done + k < |LineOf(job.r)| - 1 {
      SameOnDisk(c, d, d');
    } else {
      MoreOnDisk(c, d, d', Stored(job.r));
    }
  }

  lemma LiveInos(d: Disk, r: Record, done: nat, k: nat)
    requires done + k <= |LineOf(r)| && (d.live.Some? ==> d.live.value.ino < d.nextIno)
    ensures LiveStays(d, WriteSome(d, r, done, k))
  {
    hide LineOf, Stored;
  }

  lemma SameOnDisk(c: Config, d: Disk, d': Disk)
    requires LostDisk(c, d) && d'.history == d.history && d'.rotated == d.rotated && LiveRecords(d'.live) == LiveRecords(d.live)
    requires d'.live.Some? ==> d'.live.value.ino < d'.nextIno
    ensures LostDisk(c, d')
  {
    hide GoodHistory, RotatedRecords, LiveRecords, Newest;
  }

  lemma MoreOnDisk(c: Config, d: Disk, d': Disk, r: Record)
    requires d'.rotated == d.rotated && LiveRecords(d'.live) == LiveRecords(d.live) + [r]
    ensures OnDisk(c, d') == OnDisk(c, d) + [r]
  {
    hide RotatedRecords, LiveRecords;
  }

  /** A record that starts over is on disk, after what was there. */
  ghost predicate Restarts(c: Config, d: Disk, d': Disk) {
    exists r :: Links(c.sha, r, GENESIS) && d'.history == d.history + [r] && OnDisk(c, d') == OnDisk(c, d) + [r]
  }

  lemma LostAppendStep(c: Config, s: State, p: Pid, job: Job, before: Text, done: nat, s': State)
    requires s.Holds(p) && LostDisk(c, s.disk) && LostPc(c, s.disk, Appending(job, before, done)) && AppendStep(s, p, job, before, done, s')
    ensures LostKeeps(c, s, p, s') || Restarts(c, s.disk, s'.disk)
  {
    hide LostDisk, LostPc, LiveStays, LostKeeps, WriteSome, LineOf, OnDisk, Links, Stored, AfterWrite;
    var k: nat :| done + k <= |LineOf(job.r)| && s' == s.Go(p, WriteSome(s.disk, job.r, done, k), AfterWrite(job, before, done + k));
    LostWrites(c, s.disk, job, before, done, k);
    if done + k < |LineOf(job.r)| - 1 {
      NotDone(job, before, done + k);
      LostGoes(c, s, p, WriteSome(s.disk, job.r, done, k), Appending(job, before, done + k));
    } else {
      AppendsOff(c, s.disk, job, before, done);
      OffJobFacts(c, job);
    }
  }

  lemma NotDone(job: Job, before: Text, done: nat)
    requires done < |LineOf(job.r)| - 1
    ensures AfterWrite(job, before, done) == Appending(job, before, done)
  {
    hide LineOf;
  }

  lemma LostAppends(c: Config, s: State, p: Pid, s': State)
    requires LostInv(c, s) && s.Holds(p) && s.clients[p].pc.Appending? && WriteStep(s, p, s')
    ensures LostKeeps(c, s, p, s') || Restarts(c, s.disk, s'.disk)
  {
    hide LostInv, LostDisk, LostPc, LostKeeps, Restarts, AppendStep;
    LostHolder(c, s, p);
    var Appending(job, before, done) := s.clients[p].pc;
    LostAppendStep(c, s, p, job, before, done, s');
  }

  lemma AppendsOff(c: Config, d: Disk, job: Job, before: Text, done: nat)
    requires LostPc(c, d, Appending(job, before, done))
    ensures OffJob(c, job)
  {
    hide OffJob, LineOf;
  }

  lemma LostChecks(c: Config, s: State, p: Pid, s': State)
    requires LostInv(c, s) && s.Holds(p) && s.clients[p].pc.Checking? && WriteStep(s, p, s')
    ensures LostKeeps(c, s, p, s')
  {
    var d, job := s.disk, s.clients[p].pc.job;
    hide LostInv, LostDisk, LostPc, LiveStays, LostKeeps, FileLock.HeldBy, TextOf;
    LostHolder(c, s, p);
    SoundFiles(c, d);
    LostOpens(c, d, job);
    if FileLock.HeldBy(s.lock, p) {
      LostGoes(c, s, p, d, Appending(job, TextOf(d.live), 0));
    } else {
      LostLeaves(c, s, p);
    }
  }

  lemma NotWritten(c: Config, s: State, p: Pid)
    requires LostInv(c, s) && s.Holds(p)
    ensures !s.clients[p].pc.Written?
  {
    hide LostInv, LostDisk;
    LostHolder(c, s, p);
  }

  /** Any step of a holder. */
  lemma LostHolderStep(c: Config, s: State, p: Pid, s': State)
    requires LostInv(c, s) && HolderStep(c, s, p, s')
    ensures (LostInv(c, s') && s'.disk.history == s.disk.history) || Restarts(c, s.disk, s'.disk)
  {
    hide LostInv, LostKeeps, Restarts;
    NotWritten(c, s, p);
    if FailStep(s, p, s') {
      LostHolder(c, s, p);
      hide LostDisk, LostPc, NoHit;
      LostLeaves(c, s, p);
    } else {
      match s.clients[p].pc
      case Entered => LostReads(c, s, p, s');
      case LiveMissed => LostReads(c, s, p, s');
      case Ready(_) => LostStarts(c, s, p, s');
      case Shift(_, _) => LostShifts(c, s, p, s');
      case Checking(_) => LostChecks(c, s, p, s');
      case Appending(_, _, _) => LostAppends(c, s, p, s');
    }
    if LostKeeps(c, s, p, s') {
      LostKeepsInv(c, s, p, s');
      KeptHistory(c, s, p, s');
    }
  }

  lemma KeptHistory(c: Config, s: State, p: Pid, s': State)
    requires p in s.clients && LostKeeps(c, s, p, s')
    ensures s'.disk.history == s.disk.history
  {
    hide LostDisk, LostPc, LiveStays;
  }

  lemma LostLockStep(c: Config, s: State, p: Pid, s': State)
    requires LostInv(c, s) && LockStep(s, p, s')
    ensures LostInv(c, s') && s'.disk == s.disk
  {
    FileLock.StepKeepsInv(s.lock, p, s'.lock);
    FileLock.HappensProcEffect(s.lock, p, s'.lock);
    LockStepKeepsClients(s, p, s');
    LockStepKeepsLost(c, s, p, s');
    hide LostDisk, NoHits, LostPcs, ClientsOk, FileLock.Inv, FileLock.Next, FileLock.ProcEffect;
  }

  lemma LockStepKeepsLost(c: Config, s: State, p: Pid, s': State)
    requires NoHits(s) && LostPcs(c, s) && FileLock.ProcEffect(s.lock, p, s'.lock) && LockStep(s, p, s')
    ensures NoHits(s') && LostPcs(c, s')
  {
    assert LostPc(c, s.disk, Out) && LostPc(c, s.disk, Entered);
    hide FileLock.Next, LostPc, NoHit;
  }

  lemma LostStep(c: Config, s: State, p: Pid, s': State)
    requires LostInv(c, s) && Happens(c, s, p, s')
    ensures (LostInv(c, s') && s'.disk.history == s.disk.history) || Restarts(c, s.disk, s'.disk)
  {
    hide LostInv, LockStep, HolderStep, Restarts;
    if LockStep(s, p, s') {
      LostLockStep(c, s, p, s');
    } else {
      LostHolderStep(c, s, p, s');
    }
  }

  // ----- what verification makes of it

  /** A chain and a record that starts over: rejected, unless there is nothing before it, or that
      ends in what reads as the genesis. */
  lemma RestartVerdict(sha: Text -> Text, a: seq<Record>, r: Record)
    requires Chain(sha, a, FirstPrev(a)) && Links(sha, r, GENESIS)
    ensures Verdict(sha, a + [r], FirstPrev(a + [r])).valid <==> a == [] || HashOf(a[|a| - 1]) == GENESIS
  {
    var all := a + [r];
    if a == [] {
      assert all == [r];
      FirstNames(sha, all, GENESIS);
      assert all[..0] == [];
    } else {
      assert all[0] == a[0] && FirstPrev(all) == FirstPrev(a);
      assert all[..|a|] == a && HeadAfter(a, FirstPrev(a)) == HashOf(a[|a| - 1]);
      OneLinkMore(sha, a, r, FirstPrev(a));
    }
    hide Links, HashOf, HeadAfter, Verified;
    ChainIffVerified(sha, all, FirstPrev(all));
  }

  lemma OneLinkMore(sha: Text -> Text, a: seq<Record>, r: Record, start: Text)
    requires Chain(sha, a, start)
    ensures Chain(sha, a + [r], start) <==> Links(sha, r, HeadAfter(a, start))
  {
    hide Links, HashOf, HeadAfter;
    var all := a + [r];
    assert all[..|a|] == a;
    forall i | 0 <= i < |a| ensures Links(sha, all[i], HeadAfter(all[..i], start)) {
      assert all[..i] == a[..i] && Links(sha, a[i], HeadAfter(a[..i], start));
    }
  }

  lemma LastOnDisk(c: Config, d: Disk)
    requires Consistent(c, d) && OnDisk(c, d) != []
    ensures HashOf(OnDisk(c, d)[|OnDisk(c, d)| - 1]) == TrueHead(d.history).hash
  {
    hide GoodHistory, OnDisk, HashOf;
  }

  lemma RestartedVerdict(c: Config, d: Disk, d': Disk)
    requires LostDisk(c, d) && Restarts(c, d, d')
    ensures Verdict(c.sha, OnDisk(c, d'), FirstPrev(OnDisk(c, d'))).valid <==> OnDisk(c, d) == [] || TrueHead(d.history).hash == GENESIS
  {
    hide OnDisk, Verdict, FirstPrev, Links, HashOf, TrueHead, Findable, GoodHistory, Chain, SeqOf;
    var r :| Links(c.sha, r, GENESIS) && d'.history == d.history + [r] && OnDisk(c, d') == OnDisk(c, d) + [r];
    SuffixVerifies(c, d.history, OnDisk(c, d));
    RestartVerdict(c.sha, OnDisk(c, d), r);
    if OnDisk(c, d) != [] { LastOnDisk(c, d); }
  }

  // ----- the theorem

  ghost predicate Continues(c: Config, s: State, s': State) {
    exists p :: Happens(c, s, p, s')
  }

  /** A writer has just stopped while only it knew the head. */
  ghost predicate JustLost(c: Config, s: State) {
    exists before, p :: Inv(c, before) && Happens(c, before, p, s) && LosesHead(before, p, s)
  }

  /** From there on, whatever happens, and no record is written. */
  ghost predicate Silent(c: Config, r: seq<State>, n: nat) {
    && n < |r| && JustLost(c, r[0])
    && (forall k :: 0 <= k < |r| - 1 ==> Continues(c, r[k], r[k + 1]))
    && (forall k :: 0 <= k <= n ==> r[k].disk.history == r[0].disk.history)
  }

  lemma {:induction false} StaysLost(c: Config, r: seq<State>, n: nat)
    requires Silent(c, r, n)
    ensures LostInv(c, r[n])
    decreases n
  {
    hide LostInv, Happens, Inv, LosesHead;
    if n == 0 {
      var before, p :| Inv(c, before) && Happens(c, before, p, r[0]) && LosesHead(before, p, r[0]);
      LostAtFirst(c, before, p, r[0]);
    } else {
      StaysLost(c, r, n - 1);
      assert Continues(c, r[n - 1], r[n - 1 + 1]);
      var p :| Happens(c, r[n - 1], p, r[n]);
      LostStep(c, r[n - 1], p, r[n]);
      Unwritten(c, r[n - 1].disk, r[n].disk);
    }
  }

  lemma Unwritten(c: Config, d: Disk, d': Disk)
    requires d'.history == d.history
    ensures !Restarts(c, d, d')
  {
    hide OnDisk, Links;
  }

  /** Until the next record is written, verification accepts the log as ever. */
  lemma LostStillVerifies(c: Config, r: seq<State>, n: nat)
    requires Silent(c, r, n)
    ensures Verdict(c.sha, OnDisk(c, r[n].disk), FirstPrev(OnDisk(c, r[n].disk))).valid
  {
    StaysLost(c, r, n);
    LostVerdict(c, r[n]);
  }

  lemma LostVerdict(c: Config, s: State)
    requires LostInv(c, s)
    ensures LostDisk(c, s.disk) && Verdict(c.sha, OnDisk(c, s.disk), FirstPrev(OnDisk(c, s.disk))).valid
  {
    assert LostDisk(c, s.disk);
    hide LostInv, OnDisk, Verdict, FirstPrev, Findable, GoodHistory, Chain, SeqOf, TrueHead;
    SuffixVerifies(c, s.disk.history, OnDisk(c, s.disk));
    VerdictOfChain(c.sha, OnDisk(c, s.disk), FirstPrev(OnDisk(c, s.disk)));
  }

  /** The next record written starts over from the genesis, whoever writes it: from then on
      verification rejects the log, exactly if a record was still on disk, and its hash is not the
      genesis itself. */
  lemma NextRecordForks(c: Config, r: seq<State>, n: nat)
    requires Silent(c, r, n) && n + 1 < |r| && r[n + 1].disk.history != r[n].disk.history
    ensures Restarts(c, r[n].disk, r[n + 1].disk)
    ensures var all := OnDisk(c, r[n + 1].disk);
      Verdict(c.sha, all, FirstPrev(all)).valid <==>
        OnDisk(c, r[n].disk) == [] || TrueHead(r[n].disk.history).hash == GENESIS
  {
    StaysLost(c, r, n);
    hide LostInv, Happens, JustLost, Restarts, OnDisk, Verdict, FirstPrev, TrueHead;
    assert Continues(c, r[n], r[n + 1]);
    var p :| Happens(c, r[n], p, r[n + 1]);
    LostStep(c, r[n], p, r[n + 1]);
    LostVerdict(c, r[n]);
    hide LostDisk;
    RestartedVerdict(c, r[n].disk, r[n + 1].disk);
  }
}
