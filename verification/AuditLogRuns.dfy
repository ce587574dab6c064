/** What the audit log guarantees on every run of its writers, and where its head lookup ends. */
module AuditLogRuns {
  import opened Wrappers
  import opened Texts
  import opened Json
  import opened AuditChain
  import opened AuditFile
  import opened AuditLog
  import opened AuditLogProof
  import FileLock

  /** A run of any length, from no files and no processes. */
  ghost predicate Run(c: Config, r: seq<State>) {
    && |r| > 0 && r[0] == AuditLog.Start
    && forall k :: 0 <= k < |r| - 1 ==> Follows(c, r[k], r[k + 1])
  }

  ghost predicate Follows(c: Config, s: State, s': State) {
    exists p :: Next(c, s, p, s')
  }

  lemma StepKeepsInv(c: Config, s: State, s': State)
    requires Inv(c, s) && Follows(c, s, s')
    ensures Inv(c, s')
  {
    hide Inv, Happens, LosesHead;
    var p :| Next(c, s, p, s');
    HappensKeepsInvIff(c, s, p, s');
  }

  lemma {:induction false} RunKeepsInv(c: Config, r: seq<State>, k: nat)
    requires c.maxFiles >= 1 && Run(c, r) && k < |r|
    ensures Inv(c, r[k])
  {
    hide Follows;
    if k > 0 {
      hide Inv;
      RunKeepsInv(c, r, k - 1);
      assert Follows(c, r[k - 1], r[k - 1 + 1]);
      StepKeepsInv(c, r[k - 1], r[k]);
    } else {
      NothingRotated(c.maxFiles);
      assert OnDisk(c, AuditLog.Start.disk) == [];
    }
  }

  lemma {:induction false} NothingRotated(m: nat)
    ensures RotatedRecords(map[], m) == []
  {
    if m > 0 { NothingRotated(m - 1); }
  }

  // ----- what is on disk verifies

  /** The last records of a good history verify from whatever predecessor the oldest names, are
      numbered consecutively, and end in the history's head. */
  lemma SuffixVerifies(c: Config, history: seq<Record>, a: seq<Record>)
    requires GoodHistory(c, history) && IsSuffix(a, history)
    ensures Chain(c.sha, a, FirstPrev(a))
    ensures forall i :: 0 <= i < |a| ==> SeqOf(a[i]) == |history| - |a| + i
    ensures a != [] ==> HeadAfter(a, FirstPrev(a)) == TrueHead(history).hash
  {
    hide SeqOf, Links, HashOf;
    var n := |history| - |a|;
    if a != [] {
      assert Links(c.sha, history[n], HeadAfter(history[..n], GENESIS));
      FirstNames(c.sha, a, HeadAfter(history[..n], GENESIS));
    }
    hide FirstPrev;
    forall i | 0 <= i < |a| ensures Links(c.sha, a[i], HeadAfter(a[..i], FirstPrev(a))) {
      SuffixLink(c, history, a, i);
    }
  }

  lemma SuffixLink(c: Config, history: seq<Record>, a: seq<Record>, i: nat)
    requires GoodHistory(c, history) && IsSuffix(a, history) && i < |a|
    requires var n := |history| - |a|; FirstPrev(a) == HeadAfter(history[..n], GENESIS)
    ensures Links(c.sha, a[i], HeadAfter(a[..i], FirstPrev(a)))
  {
    hide SeqOf, Links, HashOf, FirstPrev;
    var n := |history| - |a|;
    assert a[i] == history[n + i] && Links(c.sha, history[n + i], HeadAfter(history[..n + i], GENESIS));
    if i > 0 {
      assert a[i - 1] == history[n + i - 1];
    }
  }

  lemma FirstNames(sha: Text -> Text, a: seq<Record>, prev: Text)
    requires a != [] && Links(sha, a[0], prev)
    ensures FirstPrev(a) == prev
  {
    hide EventOf, Canonicalize;
  }

  /** The suffix of a segment's path after the log's own. */
  function SegmentName(i: nat): Text {
    if i == 0 then [] else [46] + Decimal(i)
  }

  lemma {:induction false} NothingBeyond(c: Config, d: Disk, limit: nat)
    requires (forall i :: i in d.rotated ==> i <= c.maxFiles) && limit >= c.maxFiles
    ensures RotatedRecords(d.rotated, limit) == RotatedRecords(d.rotated, c.maxFiles)
  {
    hide RecordsIn;
    if limit > c.maxFiles {
      NothingBeyond(c, d, limit - 1);
    }
  }

  lemma FlattenMore(segments: seq<Segment>, s: Segment)
    ensures Flatten(segments + [s]) == Flatten(segments) + s.records
  {
    FlattenConcat(segments, [s]);
    assert [s][1..] == [] && Flatten([]) == [];
  }

  lemma VerdictOfChain(sha: Text -> Text, rs: seq<Record>, start: Text)
    requires Chain(sha, rs, start)
    ensures Verdict(sha, rs, start).valid && Verdict(sha, rs, start).endHash == HeadAfter(rs, start)
  {
    ChainIffVerified(sha, rs, start);
    assert rs[..|rs|] == rs;
  }

  /** What is read of a log of which segments up to `limit` are looked at. */
  function Seen(d: Disk, limit: nat): seq<Record> {
    RotatedRecords(d.rotated, limit) + LiveRecords(d.live)
  }

  lemma {:induction false} FewerSegments(rotated: map<nat, File>, m: nat, n: nat)
    requires m <= n
    ensures IsSuffix(RotatedRecords(rotated, m), RotatedRecords(rotated, n))
  {
    hide RecordsIn;
    if m < n {
      FewerSegments(rotated, m, n - 1);
    }
  }

  /** The last of the history, whatever the limit. */
  lemma SeenIsSuffix(c: Config, d: Disk, limit: nat)
    requires DiskOk(c, d)
    ensures IsSuffix(Seen(d, limit), d.history)
    ensures limit >= c.maxFiles ==> Seen(d, limit) == OnDisk(c, d)
    ensures d.history != [] && Findable(d) && limit >= 1 ==> Seen(d, limit) != []
  {
    if limit >= c.maxFiles {
      NothingBeyond(c, d, limit);
    } else {
      FewerSegments(d.rotated, limit, c.maxFiles);
    }
    if limit >= 1 {
      NewestLast(d.rotated, limit);
    }
    hide GoodHistory, RotatedRecords, LiveRecords, IsSuffix;
    if limit < c.maxFiles {
      SuffixAppend(RotatedRecords(d.rotated, limit), RotatedRecords(d.rotated, c.maxFiles), LiveRecords(d.live));
      SuffixTrans(Seen(d, limit), OnDisk(c, d), d.history);
    }
    SuffixLength(LiveRecords(Newest(d.rotated)), RotatedRecords(d.rotated, limit));
  }

  lemma SuffixLength<T>(a: seq<T>, b: seq<T>)
    ensures IsSuffix(a, b) && a != [] ==> b != []
  {
  }

  lemma SeenVerifies(c: Config, d: Disk, limit: nat)
    requires DiskOk(c, d)
    ensures var all := Seen(d, limit);
      var v := Verdict(c.sha, all, FirstPrev(all));
      v.valid && (all != [] ==> v.endHash == TrueHead(d.history).hash)
  {
    var all := Seen(d, limit);
    SeenIsSuffix(c, d, limit);
    hide Seen, GoodHistory, TrueHead;
    SuffixVerifies(c, d.history, all);
    VerdictOfChain(c.sha, all, FirstPrev(all));
  }

  lemma SegmentAdded(total: seq<Record>, sofar: seq<Record>, here: seq<Record>, older: seq<Record>)
    requires total == sofar + (here + older)
    ensures total == (sofar + here) + older
  {
  }

  /** Reads every segment that exists, oldest first, and then the log itself. */
  method ReadSegments(d: Disk, limit: nat) returns (segments: seq<Segment>)
    ensures Flatten(segments) == RotatedRecords(d.rotated, limit) + LiveRecords(d.live)
  {
    hide RecordsIn, RotatedRecords, Flatten;
    segments := [];
    assert Flatten(segments) == [] by { FlattenNone(); }
    var i: nat := limit;
    while i >= 1
      invariant i <= limit
      invariant RotatedRecords(d.rotated, limit) == Flatten(segments) + RotatedRecords(d.rotated, i)
    {
      Unrolled(d.rotated, i);
      ghost var sofar := Flatten(segments);
      if i in d.rotated {
        var records := ReadAuditFile(Some(d.rotated[i].text));
        FlattenMore(segments, Segment(SegmentName(i), records));
        SegmentAdded(RotatedRecords(d.rotated, limit), sofar, records, RotatedRecords(d.rotated, i - 1));
        segments := segments + [Segment(SegmentName(i), records)];
      } else {
        SegmentAdded(RotatedRecords(d.rotated, limit), sofar, [], RotatedRecords(d.rotated, i - 1));
        assert sofar + [] == sofar;
      }
      i := i - 1;
    }
    Unrolled(d.rotated, 0);
    LiveRecordsAre(d.live);
    var records := ReadAuditFile(if d.live.Some? then Some(d.live.value.text) else None);
    FlattenMore(segments, Segment(SegmentName(0), records));
    segments := segments + [Segment(SegmentName(0), records)];
  }

  lemma FlattenNone()
    ensures Flatten([]) == []
  {
  }

  /** What `berth audit verify` does: at any moment of any run it finds the chain unbroken; what it
      sees ends with the newest record written, and it sees something wherever the head is looked
      for; and it looks at every record on disk if its limit is no less than the writers'. */
  method VerifyLog(c: Config, d: Disk, limit: nat) returns (v: SegmentVerification)
    requires DiskOk(c, d)
    ensures v.valid && v.failure.None?
    ensures limit >= c.maxFiles ==> v.totalRecords == |OnDisk(c, d)|
    ensures v.totalRecords > 0 ==> v.head == TrueHead(d.history).hash
    ensures d.history != [] && limit >= 1 && Findable(d) ==> v.totalRecords > 0
    ensures d.history != [] && limit >= c.maxFiles >= 2 ==> v.totalRecords > 0
  {
    var segments := ReadSegments(d, limit);
    assert Flatten(segments) == Seen(d, limit);
    assert d.history != [] && c.maxFiles >= 2 ==> OnDisk(c, d) != [];
    hide Seen, OnDisk, Flatten, FirstPrev, Verdict, BrokenIn, Chain, DiskOk, TrueHead;
    SeenIsSuffix(c, d, limit);
    SeenVerifies(c, d, limit);
    v := VerifyAuditSegments(c.sha, segments);
  }

  lemma Unrolled(rotated: map<nat, File>, i: nat)
    ensures RotatedRecords(rotated, i) ==
      if i == 0 then [] else (if i in rotated then RecordsIn(rotated[i].text) else []) + RotatedRecords(rotated, i - 1)
  {
  }

  /** Whatever the interleaving, and wherever writers died or failed, at every moment of every run:
      the records on disk are the last ones of the history; they are linked and numbered without a
      gap; and verification from the oldest one's own predecessor accepts them. There are some, the
      newest among them, but while a rotation without a second segment has just thrown it away. */
  lemma LogAlwaysVerifies(c: Config, r: seq<State>, k: nat)
    requires c.maxFiles >= 1 && Run(c, r) && k < |r|
    ensures var d := r[k].disk;
      var all := OnDisk(c, d);
      && DiskOk(c, d) && IsSuffix(all, d.history)
      && (d.history != [] && (c.maxFiles >= 2 || Findable(d)) ==> all != [] && all[|all| - 1] == d.history[|d.history| - 1])
      && Chain(c.sha, all, FirstPrev(all))
      && (forall i :: 0 <= i < |all| ==> SeqOf(all[i]) == |d.history| - |all| + i)
      && Verdict(c.sha, all, FirstPrev(all)).valid
  {
    hide Inv, Run, OnDisk, Findable, DiskOk, Chain, SeqOf, Verdict, FirstPrev, IsSuffix;
    RunKeepsInv(c, r, k);
    InvDiskOk(c, r[k]);
    NewestThere(c, r[k].disk);
    DiskVerifies(c, r[k].disk);
  }

  lemma InvDiskOk(c: Config, s: State)
    requires Inv(c, s)
    ensures DiskOk(c, s.disk)
  {
    hide DiskOk, FileLock.Inv, HeadKept, CachesOk, PcsOk, ClientsOk;
  }

  lemma NewestThere(c: Config, d: Disk)
    requires DiskOk(c, d)
    ensures var all := OnDisk(c, d);
      d.history != [] && (c.maxFiles >= 2 || Findable(d)) ==> all != [] && all[|all| - 1] == d.history[|d.history| - 1]
  {
    hide GoodHistory, OnDisk, Findable;
    if d.history != [] && Findable(d) { NewestOnDisk(c, d); }
  }

  lemma DiskVerifies(c: Config, d: Disk)
    requires DiskOk(c, d)
    ensures var all := OnDisk(c, d);
      && IsSuffix(all, d.history) && Chain(c.sha, all, FirstPrev(all))
      && (forall i :: 0 <= i < |all| ==> SeqOf(all[i]) == |d.history| - |all| + i)
      && Verdict(c.sha, all, FirstPrev(all)).valid
  {
    hide GoodHistory, OnDisk, Findable, IsSuffix, Chain, SeqOf, Verdict, FirstPrev;
    SuffixVerifies(c, d.history, OnDisk(c, d));
    VerdictOfChain(c.sha, OnDisk(c, d), FirstPrev(OnDisk(c, d)));
  }

  /** The history only grows, by at most one record a step. */
  lemma HistoryOnlyGrows(c: Config, s: State, p: Pid, s': State)
    requires Next(c, s, p, s')
    ensures s'.disk.history == s.disk.history
      || (|s'.disk.history| == |s.disk.history| + 1 && s'.disk.history[..|s.disk.history|] == s.disk.history)
  {
    hide LineOf, Stored, HeadIn, MakeRecord, IsEvent, FileLock.Next, FileLock.HeldBy, LosesHead;
  }

  /** A writer that is done has its record on disk, as the newest one. */
  lemma WrittenIsOnDisk(c: Config, r: seq<State>, k: nat, p: Pid)
    requires c.maxFiles >= 1 && Run(c, r) && k < |r| && r[k].Holds(p) && r[k].clients[p].pc.Written?
    ensures var all := OnDisk(c, r[k].disk); all != [] && all[|all| - 1] == Stored(r[k].clients[p].pc.job.r)
  {
    hide Inv, Run, Stored, OnDisk, Findable;
    RunKeepsInv(c, r, k);
    HolderPcOk(c, r[k], p);
    HolderFinds(c, r[k], p);
    NewestOnDisk(c, r[k].disk);
  }

  /** assertHeld never throws: a writer about to append still holds the lock. */
  lemma StillHeld(c: Config, r: seq<State>, k: nat, p: Pid)
    requires c.maxFiles >= 1 && Run(c, r) && k < |r| && r[k].Holds(p)
    ensures FileLock.HeldBy(r[k].lock, p)
  {
    hide Inv, Run, FileLock.HeldBy;
    RunKeepsInv(c, r, k);
    HolderHeld(c, r[k], p);
  }

  // ----- where the head lookup ends

  /** currentHead without a cache: the live file, then the newest segment, then the genesis. */
  function FoundHead(d: Disk): Head {
    if HeadIn(d.live).Some? then HeadIn(d.live).value
    else if HeadIn(Newest(d.rotated)).Some? then HeadIn(Newest(d.rotated)).value
    else Head(GENESIS, 0)
  }

  /** DiskOk, but for the newest record being where currentHead looks for it. */
  predicate Consistent(c: Config, d: Disk) {
    c.maxFiles >= 1 && GoodHistory(c, d.history) && IsSuffix(OnDisk(c, d), d.history)
  }

  /** currentHead finds the head of the history exactly when there is no history, or the live file
      or the newest segment holds a complete record; the older segments are never looked at. */
  lemma HeadFoundIffFindable(c: Config, d: Disk)
    requires Consistent(c, d)
    ensures FoundHead(d) == TrueHead(d.history) <==> Findable(d)
  {
    hide GoodHistory, RotatedRecords, LiveRecords, HeadIn;
    SuffixTrans(LiveRecords(d.live), OnDisk(c, d), d.history);
    FileHead(c, d.history, d.live);
    if LiveRecords(d.live) == [] {
      NewestLast(d.rotated, c.maxFiles);
      assert OnDisk(c, d) == RotatedRecords(d.rotated, c.maxFiles);
      SuffixTrans(LiveRecords(Newest(d.rotated)), OnDisk(c, d), d.history);
      FileHead(c, d.history, Newest(d.rotated));
    }
  }

  /** On every run a writer that looks for the head finds the history's, whoever rotated before it. */
  lemma ReaderFindsHead(c: Config, r: seq<State>, k: nat, p: Pid)
    requires c.maxFiles >= 1 && Run(c, r) && k < |r| && r[k].Holds(p)
    requires r[k].clients[p].pc.Entered? || r[k].clients[p].pc.LiveMissed?
    ensures FoundHead(r[k].disk) == TrueHead(r[k].disk.history)
  {
    hide Inv, Run, Findable, FoundHead, OnDisk, GoodHistory;
    RunKeepsInv(c, r, k);
    HolderPcOk(c, r[k], p);
    HolderFinds(c, r[k], p);
    HeadFoundIffFindable(c, r[k].disk);
  }
}
