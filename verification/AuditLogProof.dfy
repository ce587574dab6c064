/** Every step of every writer keeps the audit log's invariant. */
module AuditLogProof {
  import opened Wrappers
  import opened Texts
  import opened Json
  import opened AuditChain
  import opened AuditFile
  import opened AuditLog
  import FileLock
  import JsonCanonical
  import JsonRoundTrip

  // ----- segments

  lemma {:induction false} SameBelow(a: map<nat, File>, b: map<nat, File>, i: nat)
    requires forall j :: 1 <= j <= i ==> (j in a <==> j in b) && (j in a ==> RecordsIn(a[j].text) == RecordsIn(b[j].text))
    ensures RotatedRecords(a, i) == RotatedRecords(b, i)
  {
    hide RecordsIn;
    if i > 0 {
      SameBelow(a, b, i - 1);
    }
  }

  /** Shifting a segment into a free place keeps the order of the records. */
  lemma {:induction false} RenamedKeeps(rotated: map<nat, File>, i: nat, m: nat)
    requires 1 <= i < m && i + 1 !in rotated
    ensures RotatedRecords(Renamed(rotated, i), m) == RotatedRecords(rotated, m)
  {
    hide RecordsIn;
    var after := Renamed(rotated, i);
    if m == i + 1 {
      SameBelow(after, rotated, i - 1);
      assert RotatedRecords(after, i) == [] + RotatedRecords(after, i - 1);
      assert RotatedRecords(rotated, m) == [] + RotatedRecords(rotated, i);
    } else {
      RenamedKeeps(rotated, i, m - 1);
    }
  }

  /** The live file becomes the newest segment. */
  lemma {:induction false} MovedAside(rotated: map<nat, File>, f: File, m: nat)
    requires 1 <= m && 1 !in rotated
    ensures RotatedRecords(rotated[1 := f], m) == RotatedRecords(rotated, m) + RecordsIn(f.text)
  {
    hide RecordsIn;
    if m > 1 {
      MovedAside(rotated, f, m - 1);
    } else {
      assert RotatedRecords(rotated, 0) == [] && RotatedRecords(rotated[1 := f], 0) == [];
    }
  }

  lemma OldestDropped(rotated: map<nat, File>, m: nat)
    requires m >= 1
    ensures IsSuffix(RotatedRecords(rotated - {m}, m), RotatedRecords(rotated, m))
  {
    hide RecordsIn;
    SameBelow(rotated - {m}, rotated, m - 1);
    assert RotatedRecords(rotated - {m}, m) == [] + RotatedRecords(rotated, m - 1);
  }

  lemma RepairedSegment(rotated: map<nat, File>, m: nat)
    requires 1 in rotated
    ensures RotatedRecords(rotated[1 := Repaired(rotated[1])], m) == RotatedRecords(rotated, m)
  {
    RepairKeeps(rotated[1].text);
    hide RecordsIn;
    SameBelow(rotated[1 := Repaired(rotated[1])], rotated, m);
  }

  /** The newest segment's records come last. */
  lemma {:induction false} NewestLast(rotated: map<nat, File>, m: nat)
    requires m >= 1
    ensures IsSuffix(LiveRecords(Newest(rotated)), RotatedRecords(rotated, m))
  {
    hide RecordsIn;
    if m > 1 {
      NewestLast(rotated, m - 1);
    } else {
      assert RotatedRecords(rotated, 0) == [];
    }
  }

  lemma SuffixTrans<T>(a: seq<T>, b: seq<T>, c: seq<T>)
    requires IsSuffix(a, b) && IsSuffix(b, c)
    ensures IsSuffix(a, c)
  {
  }

  lemma SuffixAppend<T>(a: seq<T>, b: seq<T>, x: seq<T>)
    requires IsSuffix(a, b)
    ensures IsSuffix(a + x, b + x)
  {
  }

  // ----- heads

  /** The last of the history's records leaves the history's head. */
  lemma HistoryHead(c: Config, history: seq<Record>)
    requires GoodHistory(c, history)
    ensures forall r :: r in history ==> HeadOfRecord(r).Some?
    ensures history != [] ==> HeadOfRecord(history[|history| - 1]) == Some(TrueHead(history))
  {
    hide EventOf, Canonicalize, SeqOf, Lookup;
    forall r | r in history ensures HeadOfRecord(r).Some? {
      var i :| 0 <= i < |history| && history[i] == r;
      assert Links(c.sha, history[i], HeadAfter(history[..i], GENESIS));
    }
  }

  /** A file whose records end the history leaves the history's head. */
  lemma FileHead(c: Config, history: seq<Record>, f: Option<File>)
    requires GoodHistory(c, history) && IsSuffix(LiveRecords(f), history)
    ensures HeadIn(f) == if LiveRecords(f) == [] then None else Some(TrueHead(history))
  {
    HistoryHead(c, history);
    hide GoodHistory, HeadOfRecord, LastHead, RecordsOf, Lines;
    if f.Some? {
      LastHeadIsLast(Lines(f.value.text));
    }
  }

  lemma LiveHead(c: Config, d: Disk)
    requires DiskOk(c, d)
    ensures HeadIn(d.live) == if LiveRecords(d.live) == [] then None else Some(TrueHead(d.history))
  {
    hide GoodHistory, RotatedRecords;
    SuffixTrans(LiveRecords(d.live), OnDisk(c, d), d.history);
    FileHead(c, d.history, d.live);
  }

  lemma NewestHead(c: Config, d: Disk)
    requires DiskOk(c, d) && LiveRecords(d.live) == []
    ensures HeadIn(Newest(d.rotated)) == if LiveRecords(Newest(d.rotated)) == [] then None else Some(TrueHead(d.history))
  {
    hide GoodHistory, RotatedRecords;
    NewestLast(d.rotated, c.maxFiles);
    assert OnDisk(c, d) == RotatedRecords(d.rotated, c.maxFiles);
    SuffixTrans(LiveRecords(Newest(d.rotated)), OnDisk(c, d), d.history);
    FileHead(c, d.history, Newest(d.rotated));
  }

  // ----- the line being written

  /** The file after `n` units of the record's line. */
  lemma PieceOfLine(before: Text, r: Record, n: nat)
    requires Closed(before) && WellFormed(Obj(r)) && JsonCanonical.Clean(Obj(r)) == Obj(Stored(r)) && n <= |LineOf(r)|
    ensures RecordsIn(before + LineOf(r)[..n]) == RecordsIn(before) + (if n + 1 >= |LineOf(r)| then [Stored(r)] else [])
  {
    AppendToClosed(before, LineOf(r)[..n]);
    PrefixOfLine(r, LineOf(r)[..n]);
  }

  /** The whole line but for its newline leaves the line open. */
  lemma OpenLine(before: Text, r: Record)
    ensures var t := before + LineOf(r)[..|LineOf(r)| - 1];
      !Closed(t) && Repair(t) == before + LineOf(r)
  {
    var line := LineOf(r);
    StringifyInline(Obj(r));
    assert line[..|line| - 1] == Stringify(Obj(r));
    JsonRoundTrip.StartsVisibly(Obj(r));
    assert before + Stringify(Obj(r)) + [NEWLINE] == before + line;
  }

  // ----- caches

  /** The live file is untouched, longer, gone, or new. */
  predicate LiveMoves(d: Disk, d': Disk) {
    && d.nextIno <= d'.nextIno
    && (d'.live.Some? ==>
          || (d.live == d'.live && d.history == d'.history)
          || (d.live.Some? && d'.live.value.ino == d.live.value.ino && |d'.live.value.text| > |d.live.value.text|
                && (LiveRecords(d.live) != [] ==> LiveRecords(d'.live) != []))
          || d'.live.value.ino == d.nextIno)
  }

  lemma CacheStays(d: Disk, d': Disk, k: Cache)
    requires CacheOk(d, k) && LiveMoves(d, d')
    ensures CacheOk(d', k)
  {
    hide TrueHead, LiveRecords;
  }

  /** What a step of holder `p` must establish. */
  ghost predicate Keeps(c: Config, s: State, p: Pid, s': State)
    requires p in s.clients
  {
    && s'.lock == s.lock && p in s'.clients
    && s'.clients == s.clients[p := s'.clients[p]]
    && LiveMoves(s.disk, s'.disk) && DiskOk(c, s'.disk) && (Findable(s'.disk) || Carries(s'.clients[p].pc))
    && !s'.clients[p].pc.Out? && PcOk(c, s'.disk, s'.clients[p].pc)
    && (s'.clients[p].cached == s.clients[p].cached || s'.clients[p].cached.None? || CacheOk(s'.disk, s'.clients[p].cached.value))
  }

  /** Mutual exclusion: while `p` holds the lock, every other live writer is outside. */
  lemma OthersOutside(s: State, p: Pid, q: Pid)
    requires FileLock.Inv(s.lock) && ClientsOk(s) && s.Holds(p) && q != p && q in s.clients && s.lock.Live(q)
    ensures s.clients[q].pc.Out?
  {
    assert FileLock.MainOk(s.lock, p, s.lock.pc[p]);
    assert FileLock.MainOk(s.lock, q, s.lock.pc[q]);
  }

  /** A reader of the head finds it: nobody else is inside to carry it. */
  lemma HolderFinds(c: Config, s: State, p: Pid)
    requires Inv(c, s) && s.Holds(p) && !Carries(s.clients[p].pc)
    ensures Findable(s.disk)
  {
    hide DiskOk, PcOk, CachesOk, Findable, Carries;
    if !Findable(s.disk) {
      var q :| q in s.clients && s.Holds(q) && Carries(s.clients[q].pc);
      OneHolder(s, p, q);
    }
  }

  lemma OneHolder(s: State, p: Pid, q: Pid)
    requires FileLock.Inv(s.lock) && s.Holds(p) && s.Holds(q)
    ensures p == q
  {
    assert FileLock.MainOk(s.lock, p, s.lock.pc[p]);
    assert FileLock.MainOk(s.lock, q, s.lock.pc[q]);
  }

  lemma HolderPcOk(c: Config, s: State, p: Pid)
    requires Inv(c, s) && s.Holds(p)
    ensures DiskOk(c, s.disk) && PcOk(c, s.disk, s.clients[p].pc)
  {
    hide DiskOk, PcOk, FileLock.Inv;
  }

  /** assertHeld does not throw for a writer inside. */
  lemma HolderHeld(c: Config, s: State, p: Pid)
    requires Inv(c, s) && s.Holds(p)
    ensures FileLock.HeldBy(s.lock, p)
  {
    hide DiskOk, HeadKept, CachesOk, PcsOk, ClientsOk;
    assert FileLock.MainOk(s.lock, p, s.lock.pc[p]);
  }

  lemma KeepsInv(c: Config, s: State, p: Pid, s': State)
    requires Inv(c, s) && s.Holds(p) && Keeps(c, s, p, s')
    ensures Inv(c, s')
  {
    hide DiskOk, CacheOk, LiveMoves, FileLock.Inv, Findable, Carries;
    assert s'.Holds(p);
    forall q | q in s'.clients && s'.clients[q].cached.Some?
      ensures CacheOk(s'.disk, s'.clients[q].cached.value)
    {
      if q != p || s'.clients[p].cached == s.clients[p].cached {
        CacheStays(s.disk, s'.disk, s.clients[q].cached.value);
      }
    }
    forall q | q in s'.clients && s'.lock.Live(q)
      ensures PcOk(c, s'.disk, s'.clients[q].pc)
    {
      if q != p {
        OthersOutside(s, p, q);
      }
    }
  }

  lemma GoKeeps(c: Config, s: State, p: Pid, d: Disk, pc: Pc)
    requires s.Holds(p) && LiveMoves(s.disk, d) && DiskOk(c, d) && !pc.Out? && PcOk(c, d, pc) && (Findable(d) || Carries(pc))
    ensures Keeps(c, s, p, s.Go(p, d, pc))
  {
    hide LiveMoves, DiskOk, PcOk, Findable, Carries;
  }

  lemma LeaveKeeps(c: Config, s: State, p: Pid, k: Option<Cache>)
    requires s.Holds(p) && DiskOk(c, s.disk) && Findable(s.disk) && (k.Some? ==> CacheOk(s.disk, k.value))
    ensures Keeps(c, s, p, s.Leave(p, k))
  {
    hide DiskOk, CacheOk, Findable;
  }

  // ----- reading the head

  lemma RepairLiveOk(c: Config, d: Disk)
    requires DiskOk(c, d)
    ensures var d' := RepairLive(d);
      && DiskOk(c, d') && LiveMoves(d, d') && LiveClosed(d') && Findable(d') == Findable(d)
      && LiveRecords(d'.live) == LiveRecords(d.live) && d'.history == d.history
  {
    if d.live.Some? {
      RepairKeeps(d.live.value.text);
    }
    hide GoodHistory, RotatedRecords, RecordsIn, Newest;
  }

  lemma RepairNewestOk(c: Config, d: Disk)
    requires DiskOk(c, d)
    ensures DiskOk(c, RepairNewest(d)) && Findable(RepairNewest(d)) == Findable(d)
  {
    if 1 in d.rotated {
      RepairedSegment(d.rotated, c.maxFiles);
      RepairKeeps(d.rotated[1].text);
    }
    hide GoodHistory, RotatedRecords, RecordsIn;
  }

  lemma HitHead(c: Config, s: State, p: Pid)
    requires Inv(c, s) && p in s.clients && Hit(s.disk, s.clients[p].cached)
    ensures LiveMoves(s.disk, s.disk) && LiveClosed(s.disk) && s.clients[p].cached.value.head == TrueHead(s.disk.history)
  {
    hide DiskOk, PcsOk, HeadKept, ClientsOk, FileLock.Inv, TrueHead;
    assert CacheOk(s.disk, s.clients[p].cached.value);
  }

  lemma EnteredKeeps(c: Config, s: State, p: Pid, s': State)
    requires Inv(c, s) && s.Holds(p) && s.clients[p].pc.Entered? && ReadStep(s, p, s')
    ensures Keeps(c, s, p, s')
  {
    var d, k := s.disk, s.clients[p].cached;
    hide Inv, Findable, DiskOk, TrueHead, RepairLive, LiveRecords, HeadIn, LiveMoves, LiveClosed, Keeps;
    HolderFinds(c, s, p);
    HolderPcOk(c, s, p);
    if Hit(d, k) && s' == s.Go(p, d, Ready(k.value.head)) {
      HitHead(c, s, p);
      GoKeeps(c, s, p, d, Ready(k.value.head));
    } else {
      LiveHead(c, d);
      RepairLiveOk(c, d);
      GoKeeps(c, s, p, RepairLive(d), if HeadIn(d.live).Some? then Ready(HeadIn(d.live).value) else LiveMissed);
    }
  }

  /** What is read after the live file was missed is the history's head. */
  lemma MissedHead(c: Config, d: Disk)
    requires DiskOk(c, d) && LiveRecords(d.live) == [] && Findable(d)
    ensures var h := HeadIn(Newest(d.rotated));
      (if h.Some? then h.value else Head(GENESIS, 0)) == TrueHead(d.history)
  {
    NewestHead(c, d);
    assert TrueHead([]) == Head(GENESIS, 0);
    hide DiskOk, TrueHead, HeadIn, LiveRecords;
  }

  lemma RepairNewestMoves(d: Disk)
    ensures var d' := RepairNewest(d); d'.history == d.history && d'.live == d.live && LiveMoves(d, d') && LiveClosed(d') == LiveClosed(d)
  {
  }

  lemma LiveMissedKeeps(c: Config, s: State, p: Pid, s': State)
    requires Inv(c, s) && s.Holds(p) && s.clients[p].pc.LiveMissed? && ReadStep(s, p, s')
    ensures Keeps(c, s, p, s')
  {
    var d := s.disk;
    hide Inv, Findable, DiskOk, LiveRecords, TrueHead, HeadIn, LiveMoves, LiveClosed, Keeps, RepairNewest, RepairLive;
    HolderFinds(c, s, p);
    HolderPcOk(c, s, p);
    MissedHead(c, d);
    RepairNewestOk(c, d);
    RepairNewestMoves(d);
    var h := HeadIn(Newest(d.rotated));
    GoKeeps(c, s, p, RepairNewest(d), Ready(if h.Some? then h.value else Head(GENESIS, 0)));
  }

  // ----- rotating

  lemma JobForOk(c: Config, d: Disk, event: Fields)
    requires IsEvent(event)
    ensures JobOk(c, d, JobFor(c, TrueHead(d.history), event))
  {
    MadeRecordLinks(c.sha, TrueHead(d.history), event);
    hide MakeRecord, Links, TrueHead, WellFormed;
  }

  /** The newest record of the history is on disk, wherever it is looked for. */
  lemma NewestOnDisk(c: Config, d: Disk)
    requires c.maxFiles >= 1 && IsSuffix(OnDisk(c, d), d.history) && Findable(d) && d.history != []
    ensures OnDisk(c, d) != [] && OnDisk(c, d)[|OnDisk(c, d)| - 1] == d.history[|d.history| - 1]
  {
    hide RotatedRecords, LiveRecords;
    NewestLast(d.rotated, c.maxFiles);
  }

  lemma DropOldestOk(c: Config, d: Disk)
    requires DiskOk(c, d) && Findable(d)
    ensures DiskOk(c, DropOldest(c, d))
  {
    var d' := DropOldest(c, d);
    assert c.maxFiles >= 2 ==> Newest(d'.rotated) == Newest(d.rotated);
    hide GoodHistory, LiveRecords, IsSuffix, Newest, OnDisk;
    DroppedSuffix(c, d);
    if c.maxFiles >= 2 && d.history != [] {
      NewestOnDisk(c, d');
    }
  }

  lemma DroppedSuffix(c: Config, d: Disk)
    requires c.maxFiles >= 1 && IsSuffix(OnDisk(c, d), d.history)
    ensures IsSuffix(OnDisk(c, DropOldest(c, d)), d.history)
  {
    OldestDropped(d.rotated, c.maxFiles);
    var d' := DropOldest(c, d);
    hide RotatedRecords, LiveRecords, IsSuffix;
    SuffixAppend(RotatedRecords(d'.rotated, c.maxFiles), RotatedRecords(d.rotated, c.maxFiles), LiveRecords(d.live));
    SuffixTrans(OnDisk(c, d'), OnDisk(c, d), d.history);
  }

  /** What a pending record rests on besides the live file. */
  lemma SameHistory(c: Config, d: Disk, d': Disk, job: Job)
    requires d'.history == d.history
    ensures JobOk(c, d, job) ==> JobOk(c, d', job)
    ensures d'.live == d.live ==> LiveMoves(d, d') || d'.nextIno < d.nextIno
  {
    hide TrueHead, Links, WellFormed;
  }

  lemma ReadyDisk(c: Config, d: Disk, head: Head, event: Fields)
    requires DiskOk(c, d) && Findable(d) && PcOk(c, d, Ready(head)) && IsEvent(event)
    ensures var job := JobFor(c, head, event);
      && (Full(c, d) ==>
            var d' := DropOldest(c, d);
            LiveMoves(d, d') && DiskOk(c, d') && PcOk(c, d', Shift(job, FirstShift(c))))
      && LiveMoves(d, d) && PcOk(c, d, Checking(job))
  {
    hide JobFor, JobOk, TrueHead, LiveRecords, IsEvent, GoodHistory, OnDisk, Findable;
    var job := JobFor(c, head, event);
    JobForOk(c, d, event);
    if Full(c, d) {
      DropOldestOk(c, d);
      SameHistory(c, d, DropOldest(c, d), job);
    }
  }

  lemma StartJobKeeps(c: Config, s: State, p: Pid, head: Head, event: Fields, rotate: bool)
    requires s.Holds(p) && DiskOk(c, s.disk) && Findable(s.disk) && PcOk(c, s.disk, Ready(head)) && IsEvent(event)
    ensures Keeps(c, s, p, StartJob(c, s, p, JobFor(c, head, event), rotate))
  {
    var d, job := s.disk, JobFor(c, head, event);
    ReadyDisk(c, d, head, event);
    hide Keeps, DiskOk, PcOk, LiveMoves, JobFor, IsEvent, Findable, FirstShift;
    if rotate && Full(c, d) {
      GoKeeps(c, s, p, DropOldest(c, d), Shift(job, FirstShift(c)));
    } else {
      GoKeeps(c, s, p, d, Checking(job));
    }
  }

  lemma ReadyKeeps(c: Config, s: State, p: Pid, s': State)
    requires Inv(c, s) && s.Holds(p) && s.clients[p].pc.Ready? && RotateStep(c, s, p, s')
    ensures Keeps(c, s, p, s')
  {
    var head := s.clients[p].pc.head;
    hide Inv, Keeps, DiskOk, PcOk, JobFor, StartJob, IsEvent, Findable, Renamed, MoveAside;
    HolderFinds(c, s, p);
    HolderPcOk(c, s, p);
    var event, rotate :| IsEvent(event) && s' == StartJob(c, s, p, JobFor(c, head, event), rotate);
    StartJobKeeps(c, s, p, head, event, rotate);
  }

  lemma RenameOk(c: Config, d: Disk, i: nat)
    requires DiskOk(c, d) && 1 <= i < c.maxFiles && i + 1 !in d.rotated
    ensures DiskOk(c, d.(rotated := Renamed(d.rotated, i)))
  {
    RenamedKeeps(d.rotated, i, c.maxFiles);
    hide GoodHistory, RotatedRecords, LiveRecords;
  }

  lemma MoveAsideOk(c: Config, d: Disk)
    requires DiskOk(c, d) && d.live.Some? && 1 !in d.rotated
    ensures DiskOk(c, MoveAside(d))
  {
    MovedAside(d.rotated, d.live.value, c.maxFiles);
    hide GoodHistory, RotatedRecords, RecordsIn;
    assert OnDisk(c, MoveAside(d)) == OnDisk(c, d);
  }

  lemma Vacated(rotated: map<nat, File>, i: nat)
    ensures i !in Renamed(rotated, i)
  {
  }

  lemma ShiftDisk(c: Config, d: Disk, job: Job, i: nat)
    requires DiskOk(c, d) && PcOk(c, d, Shift(job, i)) && i > 0
    ensures var d' := d.(rotated := Renamed(d.rotated, i));
      LiveMoves(d, d') && DiskOk(c, d') && PcOk(c, d', Shift(job, i - 1))
  {
    hide DiskOk, JobOk, LiveRecords, LiveMoves, Renamed, Closed;
    var d' := d.(rotated := Renamed(d.rotated, i));
    RenameOk(c, d, i);
    SameHistory(c, d, d', job);
    Vacated(d.rotated, i);
  }

  lemma AsideDisk(c: Config, d: Disk, job: Job)
    requires DiskOk(c, d) && PcOk(c, d, Shift(job, 0))
    ensures d.live.Some? && LiveMoves(d, MoveAside(d)) && DiskOk(c, MoveAside(d)) && PcOk(c, MoveAside(d), Checking(job))
  {
    hide DiskOk, JobOk, LiveRecords, Closed;
    MoveAsideOk(c, d);
    SameHistory(c, d, MoveAside(d), job);
  }

  lemma ShiftGoes(c: Config, s: State, p: Pid, job: Job, i: nat)
    requires s.Holds(p) && DiskOk(c, s.disk) && PcOk(c, s.disk, Shift(job, i))
    ensures i > 0 ==> Keeps(c, s, p, s.Go(p, s.disk.(rotated := Renamed(s.disk.rotated, i)), Shift(job, i - 1)))
    ensures i == 0 ==> s.disk.live.Some? && Keeps(c, s, p, s.Go(p, MoveAside(s.disk), Checking(job)))
  {
    hide Keeps, DiskOk, PcOk, LiveMoves, Renamed, MoveAside, Findable, LineOf;
    var d := s.disk;
    if i > 0 {
      ShiftDisk(c, d, job, i);
      GoKeeps(c, s, p, d.(rotated := Renamed(d.rotated, i)), Shift(job, i - 1));
    } else {
      AsideDisk(c, d, job);
      GoKeeps(c, s, p, MoveAside(d), Checking(job));
    }
  }

  lemma ShiftKeeps(c: Config, s: State, p: Pid, s': State)
    requires Inv(c, s) && s.Holds(p) && s.clients[p].pc.Shift? && RotateStep(c, s, p, s')
    ensures Keeps(c, s, p, s')
  {
    hide Inv, Keeps, DiskOk, PcOk, Renamed, MoveAside, JobFor, StartJob, IsEvent;
    HolderPcOk(c, s, p);
    ShiftGoes(c, s, p, s.clients[p].pc.job, s.clients[p].pc.i);
  }

  // ----- writing the line

  lemma LineIsLong(r: Record)
    ensures |LineOf(r)| > 2
  {
  }

  lemma LineStarts(c: Config, d: Disk, job: Job)
    requires PcOk(c, d, Checking(job))
    ensures PcOk(c, d, Appending(job, TextOf(d.live), 0))
  {
    hide JobOk;
    LineIsLong(job.r);
    assert TextOf(d.live) + LineOf(job.r)[..0] == TextOf(d.live);
  }

  lemma CheckingKeeps(c: Config, s: State, p: Pid, s': State)
    requires Inv(c, s) && s.Holds(p) && s.clients[p].pc.Checking? && WriteStep(s, p, s')
    ensures Keeps(c, s, p, s')
  {
    var d, job := s.disk, s.clients[p].pc.job;
    hide Inv, Keeps, DiskOk, Findable, PcOk, LineOf, FileLock.HeldBy;
    HolderPcOk(c, s, p);
    HolderHeld(c, s, p);
    LineStarts(c, d, job);
    LineIsLong(job.r);
    GoKeeps(c, s, p, d, Appending(job, TextOf(d.live), 0));
  }

  lemma PieceText(before: Text, line: Text, done: nat, k: nat)
    requires done + k <= |line|
    ensures (before + line[..done]) + line[done..done + k] == before + line[..done + k]
  {
    assert line[..done + k] == line[..done] + line[done..done + k];
  }

  /** The live file after `k` more units. */
  lemma WrittenFile(d: Disk, r: Record, before: Text, done: nat, k: nat)
    requires LineOk(d, r, before, done) && done + k <= |LineOf(r)| && (d.live.Some? ==> d.live.value.ino < d.nextIno)
    ensures var d' := WriteSome(d, r, done, k);
      && d'.rotated == d.rotated && d'.live.Some? && d'.live.value.ino < d'.nextIno
      && d'.live.value.text == before + LineOf(r)[..done + k]
      && (done + k < |LineOf(r)| ==> LineOk(d', r, before, done + k))
      && d'.history == (if done < |LineOf(r)| - 1 <= done + k then d.history + [Stored(r)] else d.history)
  {
    hide LineOf, Stored;
    PieceText(before, LineOf(r), done, k);
    if d.live.None? {
      assert [] + LineOf(r)[done..done + k] == LineOf(r)[done..done + k];
    }
  }

  lemma WriteMoves(d: Disk, r: Record, before: Text, done: nat, k: nat)
    requires LineOk(d, r, before, done) && done + k <= |LineOf(r)| && (d.live.Some? ==> d.live.value.ino < d.nextIno)
    requires LiveRecords(d.live) != [] ==> LiveRecords(WriteSome(d, r, done, k).live) != []
    ensures LiveMoves(d, WriteSome(d, r, done, k))
  {
    hide LineOf, Stored, Closed, LiveRecords;
    if k == 0 && d.live.Some? {
      assert d.live.value.text + LineOf(r)[done..done] == d.live.value.text;
    }
  }

  /** No record more on disk, and none in the history. */
  lemma SameRecords(c: Config, d: Disk, d': Disk)
    requires DiskOk(c, d) && d'.history == d.history && d'.rotated == d.rotated
    requires LiveRecords(d'.live) == LiveRecords(d.live) && (d'.live.Some? ==> d'.live.value.ino < d'.nextIno)
    ensures DiskOk(c, d') && Findable(d') == Findable(d)
  {
    hide GoodHistory, RotatedRecords, LiveRecords;
  }

  /** One record more on disk, and in the history. */
  lemma OneMoreRecord(c: Config, d: Disk, d': Disk, job: Job)
    requires DiskOk(c, d) && JobOk(c, d, job) && d'.history == d.history + [Stored(job.r)] && d'.rotated == d.rotated
    requires LiveRecords(d'.live) == LiveRecords(d.live) + [Stored(job.r)] && (d'.live.Some? ==> d'.live.value.ino < d'.nextIno)
    ensures DiskOk(c, d') && Recorded(d', job) && Findable(d')
  {
    hide GoodHistory, RotatedRecords, LiveRecords, Links, WellFormed, Stored, TrueHead, SeqOf, HashOf, JsonCanonical.Clean;
    var r := Stored(job.r);
    HistoryGrows(c, d.history, r);
    SuffixAppend(OnDisk(c, d), d.history, [r]);
    hide JobOk;
    assert OnDisk(c, d') == OnDisk(c, d) + [r];
  }

  lemma HistoryGrows(c: Config, history: seq<Record>, r: Record)
    requires GoodHistory(c, history) && Links(c.sha, r, TrueHead(history).hash) && SeqOf(r) == |history|
    ensures GoodHistory(c, history + [r]) && TrueHead(history + [r]) == Head(HashOf(r), |history| + 1)
  {
    hide Links, SeqOf, HashOf;
    var h := history + [r];
    forall i | 0 <= i < |h| ensures Links(c.sha, h[i], HeadAfter(h[..i], GENESIS)) {
      if i < |history| {
        assert h[..i] == history[..i] && Links(c.sha, history[i], HeadAfter(history[..i], GENESIS));
      } else {
        assert h[..i] == history;
      }
    }
  }

  lemma LiveRecordsAre(live: Option<File>)
    ensures LiveRecords(live) == RecordsIn(TextOf(live))
  {
    RecordOfLine([]);
  }

  lemma TextGrows(d: Disk, r: Record, before: Text, done: nat, k: nat)
    requires LineOk(d, r, before, done) && done + k <= |LineOf(r)| && (d.live.Some? ==> d.live.value.ino < d.nextIno)
    ensures Closed(before) && TextOf(d.live) == before + LineOf(r)[..done]
    ensures TextOf(WriteSome(d, r, done, k).live) == before + LineOf(r)[..done + k]
  {
    WrittenFile(d, r, before, done, k);
    hide WriteSome, LineOf, Closed, Stored;
  }

  /** The records of the live file, before and after `k` more units. */
  lemma RecordsGrow(d: Disk, r: Record, before: Text, done: nat, k: nat)
    requires LineOk(d, r, before, done) && done + k <= |LineOf(r)| && done < |LineOf(r)| - 1
    requires WellFormed(Obj(r)) && JsonCanonical.Clean(Obj(r)) == Obj(Stored(r)) && (d.live.Some? ==> d.live.value.ino < d.nextIno)
    ensures var after := LiveRecords(WriteSome(d, r, done, k).live);
      && (done + k < |LineOf(r)| - 1 ==> after == LiveRecords(d.live))
      && (done + k >= |LineOf(r)| - 1 ==> after == LiveRecords(d.live) + [Stored(r)])
  {
    hide WriteSome, LineOf, LineOk, TextOf, RecordsIn, Stored, LiveRecords, WellFormed, JsonCanonical.Clean, Closed;
    TextGrows(d, r, before, done, k);
    LiveRecordsAre(d.live);
    LiveRecordsAre(WriteSome(d, r, done, k).live);
    PiecesOfLine(before, r, done, done + k);
  }

  lemma PiecesOfLine(before: Text, r: Record, m: nat, n: nat)
    requires Closed(before) && WellFormed(Obj(r)) && JsonCanonical.Clean(Obj(r)) == Obj(Stored(r))
    requires m <= n <= |LineOf(r)| && m < |LineOf(r)| - 1
    ensures var t, t' := RecordsIn(before + LineOf(r)[..m]), RecordsIn(before + LineOf(r)[..n]);
      && (n < |LineOf(r)| - 1 ==> t' == t)
      && (n >= |LineOf(r)| - 1 ==> t' == t + [Stored(r)])
  {
    hide LineOf, RecordsIn, Stored, WellFormed, JsonCanonical.Clean, Closed;
    PieceOfLine(before, r, m);
    PieceOfLine(before, r, n);
    assert RecordsIn(before) + [] == RecordsIn(before);
  }

  /** The record's brace is not there yet, or comes now. */
  lemma RecordWritten(c: Config, d: Disk, job: Job, before: Text, done: nat, k: nat)
    requires DiskOk(c, d) && LineOk(d, job.r, before, done) && JobOk(c, d, job) && done + k <= |LineOf(job.r)| && done < |LineOf(job.r)| - 1
    ensures var d' := WriteSome(d, job.r, done, k);
      && DiskOk(c, d')
      && (if done + k < |LineOf(job.r)| - 1 then JobOk(c, d', job) else Recorded(d', job) && Findable(d'))
      && (LiveRecords(d.live) != [] ==> LiveRecords(d'.live) != [])
  {
    var d' := WriteSome(d, job.r, done, k);
    WrittenFile(d, job.r, before, done, k);
    RecordsGrow(d, job.r, before, done, k);
    hide WriteSome, LineOk, LiveRecords, LineOf, Stored, JobOk, Recorded, Findable;
    if done + k < |LineOf(job.r)| - 1 {
      SameHistory(c, d, d', job);
      SameRecords(c, d, d');
    } else {
      OneMoreRecord(c, d, d', job);
    }
  }

  /** Only the newline was missing. */
  lemma NewlineWritten(c: Config, d: Disk, r: Record, before: Text, done: nat, k: nat)
    requires DiskOk(c, d) && LineOk(d, r, before, done) && done + k <= |LineOf(r)| && done == |LineOf(r)| - 1
    ensures var d' := WriteSome(d, r, done, k); DiskOk(c, d') && d'.history == d.history && Findable(d') == Findable(d) && LiveRecords(d'.live) == LiveRecords(d.live)
  {
    var d' := WriteSome(d, r, done, k);
    LineIsLong(r);
    assert d.live.Some?;
    WrittenFile(d, r, before, done, k);
    OpenLine(before, r);
    LineCloses(before, r);
    RepairKeeps(d.live.value.text);
    hide LineOf, RecordsIn, Repair, WriteSome, Closed, DiskOk, Findable;
    assert d'.live.value.text == if k == 0 then d.live.value.text else Repair(d.live.value.text);
    assert LiveRecords(d'.live) == LiveRecords(d.live);
    SameRecords(c, d, d');
  }

  lemma LineCloses(before: Text, r: Record)
    ensures Closed(before + LineOf(r)[..|LineOf(r)|]) && before + LineOf(r)[..|LineOf(r)|] == before + LineOf(r)
  {
    assert LineOf(r)[..|LineOf(r)|] == LineOf(r);
  }

  lemma LineDone(d: Disk, r: Record, before: Text, done: nat, k: nat)
    requires LineOk(d, r, before, done) && done + k == |LineOf(r)| && (d.live.Some? ==> d.live.value.ino < d.nextIno)
    ensures var d' := WriteSome(d, r, done, k); d'.live.Some? && Closed(d'.live.value.text)
  {
    hide LineOk;
    WrittenFile(d, r, before, done, k);
    LineCloses(before, r);
    hide LineOf, Closed, WriteSome;
  }

  lemma LineGoesOn(d: Disk, r: Record, before: Text, done: nat, k: nat)
    requires LineOk(d, r, before, done) && done + k < |LineOf(r)| && (d.live.Some? ==> d.live.value.ino < d.nextIno)
    ensures LineOk(WriteSome(d, r, done, k), r, before, done + k)
  {
    hide LineOk, LineOf, Closed, WriteSome;
    WrittenFile(d, r, before, done, k);
  }

  lemma AfterWriteOk(c: Config, d: Disk, job: Job, before: Text, done: nat, k: nat)
    requires LineOk(d, job.r, before, done) && done + k <= |LineOf(job.r)| && (d.live.Some? ==> d.live.value.ino < d.nextIno)
    requires done + k < |LineOf(job.r)| - 1 ==> JobOk(c, WriteSome(d, job.r, done, k), job)
    requires done + k >= |LineOf(job.r)| - 1 ==> Recorded(WriteSome(d, job.r, done, k), job)
    ensures PcOk(c, WriteSome(d, job.r, done, k), AfterWrite(job, before, done + k))
  {
    hide JobOk, Recorded, LineOf, LineOk, Closed, WriteSome;
    if done + k == |LineOf(job.r)| {
      LineDone(d, job.r, before, done, k);
    } else {
      LineGoesOn(d, job.r, before, done, k);
    }
  }

  /** Wherever a write stops, the disk is in order, and the head is found or still carried. */
  lemma WriteDisk(c: Config, d: Disk, job: Job, before: Text, done: nat, k: nat)
    requires DiskOk(c, d) && PcOk(c, d, Appending(job, before, done)) && done + k <= |LineOf(job.r)|
    requires Findable(d) || Carries(Appending(job, before, done))
    ensures var d', pc := WriteSome(d, job.r, done, k), AfterWrite(job, before, done + k);
      LiveMoves(d, d') && DiskOk(c, d') && PcOk(c, d', pc) && (Findable(d') || Carries(pc))
  {
    assert d.live.Some? ==> d.live.value.ino < d.nextIno;
    hide LiveMoves, WriteSome, JobOk, Recorded, LineOf, LineOk, DiskOk, Closed, Findable, LiveRecords;
    assert done < |LineOf(job.r)| by { LineNotDone(d, job.r, before, done); }
    if done < |LineOf(job.r)| - 1 {
      RecordWritten(c, d, job, before, done, k);
    } else {
      NewlineWritten(c, d, job.r, before, done, k);
      SameHead(d, WriteSome(d, job.r, done, k), job);
    }
    WriteMoves(d, job.r, before, done, k);
    hide PcOk;
    AfterWriteOk(c, d, job, before, done, k);
  }

  lemma LineNotDone(d: Disk, r: Record, before: Text, done: nat)
    requires LineOk(d, r, before, done)
    ensures done < |LineOf(r)|
  {
    hide LineOf, Closed;
  }

  lemma SameHead(d: Disk, d': Disk, job: Job)
    requires d'.history == d.history && Recorded(d, job) && LiveRecords(d'.live) == LiveRecords(d.live)
    ensures Recorded(d', job)
  {
    hide TrueHead, Stored, LiveRecords;
  }

  lemma NeverOut(job: Job, before: Text, done: nat)
    ensures !AfterWrite(job, before, done).Out?
  {
    hide LineOf;
  }

  lemma AppendStepKeeps(c: Config, s: State, p: Pid, job: Job, before: Text, done: nat, s': State)
    requires s.Holds(p) && DiskOk(c, s.disk) && PcOk(c, s.disk, Appending(job, before, done)) && AppendStep(s, p, job, before, done, s')
    requires Findable(s.disk) || Carries(Appending(job, before, done))
    ensures Keeps(c, s, p, s')
  {
    hide Keeps, DiskOk, PcOk, LiveMoves, WriteSome, LineOf, AfterWrite, Findable, Carries;
    var k: nat :| done + k <= |LineOf(job.r)| && s' == s.Go(p, WriteSome(s.disk, job.r, done, k), AfterWrite(job, before, done + k));
    WriteDisk(c, s.disk, job, before, done, k);
    NeverOut(job, before, done + k);
    GoKeeps(c, s, p, WriteSome(s.disk, job.r, done, k), AfterWrite(job, before, done + k));
  }

  lemma AppendingKeeps(c: Config, s: State, p: Pid, s': State)
    requires Inv(c, s) && s.Holds(p) && s.clients[p].pc.Appending? && WriteStep(s, p, s')
    ensures Keeps(c, s, p, s')
  {
    hide Inv, Keeps, DiskOk, PcOk, AppendStep, Findable, Carries;
    HolderPcOk(c, s, p);
    if !Carries(s.clients[p].pc) { HolderFinds(c, s, p); }
    var Appending(job, before, done) := s.clients[p].pc;
    AppendStepKeeps(c, s, p, job, before, done, s');
  }

  lemma LeavingKeeps(c: Config, s: State, p: Pid, s': State)
    requires Inv(c, s) && s.Holds(p) && ((s.clients[p].pc.Written? && WriteStep(s, p, s')) || (FailStep(s, p, s') && Findable(s.disk)))
    ensures Keeps(c, s, p, s')
  {
    hide Inv, Findable, Keeps;
    HolderPcOk(c, s, p);
    if s.clients[p].pc.Written? { HolderFinds(c, s, p); }
    var k := s'.clients[p].cached;
    assert k.Some? ==> CacheOk(s.disk, k.value);
    hide DiskOk, CacheOk, TrueHead;
    LeaveKeeps(c, s, p, k);
  }

  // ----- every step

  lemma HolderStepKeepsInv(c: Config, s: State, p: Pid, s': State)
    requires Inv(c, s) && HolderStep(c, s, p, s') && !LosesHead(s, p, s')
    ensures Inv(c, s')
  {
    hide Inv, Keeps, Findable;
    if FailStep(s, p, s') {
      LeavingKeeps(c, s, p, s');
    } else {
      hide LosesHead;
      match s.clients[p].pc
      case Entered => EnteredKeeps(c, s, p, s');
      case LiveMissed => LiveMissedKeeps(c, s, p, s');
      case Ready(_) => ReadyKeeps(c, s, p, s');
      case Shift(_, _) => ShiftKeeps(c, s, p, s');
      case Checking(_) => CheckingKeeps(c, s, p, s');
      case Appending(_, _, _) => AppendingKeeps(c, s, p, s');
      case Written(_) => LeavingKeeps(c, s, p, s');
    }
    KeepsInv(c, s, p, s');
  }

  lemma LockStepKeepsCaches(s: State, p: Pid, s': State)
    requires CachesOk(s) && LockStep(s, p, s')
    ensures CachesOk(s')
  {
    hide CacheOk, FileLock.Next;
  }

  lemma LockStepKeepsClients(s: State, p: Pid, s': State)
    requires ClientsOk(s) && FileLock.ProcEffect(s.lock, p, s'.lock) && LockStep(s, p, s')
    ensures ClientsOk(s')
  {
    assert p !in s.lock.pc ==> s'.lock.pc[p] == FileLock.Idle;
    hide FileLock.Next;
  }

  lemma LockStepKeepsPcs(c: Config, s: State, p: Pid, s': State)
    requires PcsOk(c, s) && FileLock.ProcEffect(s.lock, p, s'.lock) && LockStep(s, p, s')
    ensures PcsOk(c, s')
  {
    assert PcOk(c, s.disk, Out) && PcOk(c, s.disk, Entered);
    hide FileLock.Next, PcOk;
  }

  /** Whoever carries the head goes on to do so, unless it dies. */
  lemma LockStepKeepsHead(s: State, p: Pid, s': State)
    requires HeadKept(s) && FileLock.ProcEffect(s.lock, p, s'.lock) && LockStep(s, p, s') && !LosesHead(s, p, s')
    ensures HeadKept(s')
  {
    hide FileLock.Next, Findable, LineOf;
    if !Findable(s.disk) {
      var q :| q in s.clients && s.Holds(q) && Carries(s.clients[q].pc);
      assert s'.Holds(q) && s'.clients[q] == s.clients[q];
    }
  }

  lemma LockStepKeepsInv(c: Config, s: State, p: Pid, s': State)
    requires Inv(c, s) && LockStep(s, p, s') && !LosesHead(s, p, s')
    ensures Inv(c, s')
  {
    FileLock.StepKeepsInv(s.lock, p, s'.lock);
    FileLock.HappensProcEffect(s.lock, p, s'.lock);
    LockStepKeepsCaches(s, p, s');
    LockStepKeepsClients(s, p, s');
    LockStepKeepsPcs(c, s, p, s');
    LockStepKeepsHead(s, p, s');
    hide DiskOk, CachesOk, ClientsOk, PcsOk, HeadKept, FileLock.Inv, FileLock.Next, FileLock.ProcEffect;
  }

  // ----- and when it does not

  /** Losing the head changes no file: the writer dies, or is done with. */
  lemma LoserLeaves(c: Config, s: State, p: Pid, s': State)
    requires Happens(c, s, p, s') && LosesHead(s, p, s') && Carries(s.clients[p].pc)
    requires FileLock.ProcEffect(s.lock, p, s'.lock) || s'.lock == s.lock
    ensures s'.disk == s.disk && (s'.Holds(p) ==> s'.clients[p].pc.Exit?)
    ensures forall q :: q != p && s'.Holds(q) ==> s.Holds(q)
  {
    hide Findable, LineOf, FileLock.Next, WriteSome;
  }

  lemma StepEffect(c: Config, s: State, p: Pid, s': State)
    requires Inv(c, s) && Happens(c, s, p, s')
    ensures FileLock.ProcEffect(s.lock, p, s'.lock) || s'.lock == s.lock
  {
    hide FileLock.ProcEffect, FileLock.Inv, DiskOk, CachesOk, PcsOk, HeadKept, WriteSome, LineOf, JobFor;
    if LockStep(s, p, s') {
      FileLock.HappensProcEffect(s.lock, p, s'.lock);
    }
  }

  /** A writer that stops while it alone carries the head: afterwards nobody does. */
  lemma LostIsLost(c: Config, s: State, p: Pid, s': State)
    requires Inv(c, s) && Happens(c, s, p, s') && LosesHead(s, p, s')
    ensures !HeadKept(s')
  {
    if !Carries(s.clients[p].pc) { HolderFinds(c, s, p); }
    StepEffect(c, s, p, s');
    LoserLeaves(c, s, p, s');
    assert FileLock.Inv(s.lock);
    hide Inv, FileLock.Inv, Findable, LineOf, Happens, FileLock.ProcEffect;
    if HeadKept(s') {
      var q :| q in s'.clients && s'.Holds(q) && Carries(s'.clients[q].pc);
      if q != p { OneHolder(s, p, q); }
    }
  }

  /** Whatever a writer does keeps the log's invariant, exactly unless it stops while only it knows
      the head. */
  lemma HappensKeepsInvIff(c: Config, s: State, p: Pid, s': State)
    requires Inv(c, s) && Happens(c, s, p, s')
    ensures Inv(c, s') <==> !LosesHead(s, p, s')
  {
    hide LosesHead, LockStep, HolderStep, HeadKept, DiskOk, CachesOk, ClientsOk, PcsOk, FileLock.Inv;
    if LosesHead(s, p, s') {
      LostIsLost(c, s, p, s');
    } else if LockStep(s, p, s') {
      LockStepKeepsInv(c, s, p, s');
    } else {
      HolderStepKeepsInv(c, s, p, s');
    }
  }
}
