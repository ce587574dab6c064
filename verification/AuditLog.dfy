/** Any number of writers of one rotated audit log, under the lock of `FileLock`.

    Between taking the lock and giving it back, a writer's system calls are separate steps: reading
    the head, each deletion and renaming of a rotation, the check that the lock is still held, every
    partial write of the record's line. It may die between any two of them, or fail and go on. */
module AuditLog {
  import opened Wrappers
  import opened Texts
  import opened Json
  import opened AuditChain
  import opened AuditFile
  import JsonCanonical
  import FileLock

  type Pid = FileLock.Pid

  datatype Config = Config(sha: Text -> Text, maxBytes: nat, maxFiles: nat)

  datatype File = File(ino: nat, text: Text)

  /** The head as a sink last wrote it, and the file it left. */
  datatype Cache = Cache(head: Head, ino: nat, size: nat)

  /** The record being written, and the head it leaves. */
  datatype Job = Job(r: Record, next: Head)

  datatype Pc =
    | Out
    | Entered
    | LiveMissed
    | Ready(head: Head)
    | Shift(job: Job, i: nat)
    | Checking(job: Job)
    | Appending(job: Job, before: Text, done: nat)
    | Written(job: Job)
    | Exit

  datatype Client = Client(pc: Pc, cached: Option<Cache>)

  /** `live` is the file at `path` and `rotated[i]` the one at `path.i`; `history` is every record
      whose line was ever written as far as its closing brace. */
  datatype Disk = Disk(live: Option<File>, rotated: map<nat, File>, nextIno: nat, history: seq<Record>)

  datatype State = State(lock: FileLock.State, disk: Disk, clients: map<Pid, Client>)
  {
    /** Process `p` goes on to `pc`, and the files change to `d`. */
    function Go(p: Pid, d: Disk, pc: Pc): State
      requires p in clients
    {
      State(lock, d, clients[p := clients[p].(pc := pc)])
    }

    /** Process `p` leaves with `k` for its cache. */
    function Leave(p: Pid, k: Option<Cache>): State
      requires p in clients
    {
      State(lock, disk, clients[p := Client(Exit, k)])
    }

    /** Process `p` holds the lock. */
    predicate Holds(p: Pid) {
      p in clients && lock.Live(p) && lock.pc[p].Held?
    }
  }

  const Start := State(FileLock.Start, Disk(None, map[], 0, []), map[])

  function Repaired(f: File): File {
    f.(text := Repair(f.text))
  }

  function HeadIn(f: Option<File>): Option<Head> {
    if f.None? then None else LastHead(Lines(f.value.text))
  }

  function Newest(rotated: map<nat, File>): Option<File> {
    if 1 in rotated then Some(rotated[1]) else None
  }

  /** `renameSync(path.i, path.(i+1))`, if there is a file to rename. */
  function Renamed(rotated: map<nat, File>, i: nat): map<nat, File> {
    if i in rotated then (rotated - {i})[i + 1 := rotated[i]] else rotated
  }

  /** `appendFileSync`: a file that is not there is created. */
  function Appended(live: Option<File>, nextIno: nat, text: Text): File {
    if live.None? then File(nextIno, text) else live.value.(text := live.value.text + text)
  }

  // ----- the steps of a lock holder

  function RepairLive(d: Disk): Disk {
    if d.live.None? then d else d.(live := Some(Repaired(d.live.value)))
  }

  function RepairNewest(d: Disk): Disk {
    if 1 in d.rotated then d.(rotated := d.rotated[1 := Repaired(d.rotated[1])]) else d
  }

  /** The live file is still the one the cache describes. */
  predicate Hit(d: Disk, k: Option<Cache>) {
    k.Some? && d.live.Some? && d.live.value.ino == k.value.ino && |d.live.value.text| == k.value.size
  }

  /** currentHead: the cached head, or the live file's, or the newest segment's, or the genesis. The
      file is read again, too, when its size cannot be asked for. */
  predicate ReadStep(s: State, p: Pid, s': State)
    requires s.Holds(p)
  {
    var d, k := s.disk, s.clients[p].cached;
    match s.clients[p].pc
    case Entered =>
      || (Hit(d, k) && s' == s.Go(p, d, Ready(k.value.head)))
      || s' == s.Go(p, RepairLive(d), if HeadIn(d.live).Some? then Ready(HeadIn(d.live).value) else LiveMissed)
    case LiveMissed =>
      var h := HeadIn(Newest(d.rotated));
      s' == s.Go(p, RepairNewest(d), Ready(if h.Some? then h.value else Head(GENESIS, 0)))
    case _ => false
  }

  /** The live file is at its limit. */
  predicate Full(c: Config, d: Disk) {
    d.live.Some? && |d.live.value.text| >= c.maxBytes
  }

  function JobFor(c: Config, head: Head, event: Fields): Job {
    var r := MakeRecord(c.sha, head, event);
    Job(r, Head(HashOf(r), head.seqNo + 1))
  }

  function DropOldest(c: Config, d: Disk): Disk {
    d.(rotated := d.rotated - {c.maxFiles})
  }

  function MoveAside(d: Disk): Disk
    requires d.live.Some?
  {
    d.(rotated := d.rotated[1 := d.live.value], live := None)
  }

  /** The loop over segments starts at the one before the deleted one. */
  function FirstShift(c: Config): nat {
    if c.maxFiles > 0 then c.maxFiles - 1 else 0
  }

  /** The record is made, and a full file starts its rotation with the oldest segment's deletion;
      with `rotate` false the file's size could not be asked for. */
  function StartJob(c: Config, s: State, p: Pid, job: Job, rotate: bool): State
    requires p in s.clients
  {
    if rotate && Full(c, s.disk) then s.Go(p, DropOldest(c, s.disk), Shift(job, FirstShift(c)))
    else s.Go(p, s.disk, Checking(job))
  }

  ghost predicate RotateStep(c: Config, s: State, p: Pid, s': State)
    requires s.Holds(p)
  {
    match s.clients[p].pc
    case Ready(head) =>
      exists event, rotate :: IsEvent(event) && s' == StartJob(c, s, p, JobFor(c, head, event), rotate)
    case Shift(job, i) =>
      if i > 0 then s' == s.Go(p, s.disk.(rotated := Renamed(s.disk.rotated, i)), Shift(job, i - 1))
      else s.disk.live.Some? && s' == s.Go(p, MoveAside(s.disk), Checking(job))
    case _ => false
  }

  /** `k` more units of the line reach the file, after `done`. The record counts as written with
      its last brace. */
  function WriteSome(d: Disk, r: Record, done: nat, k: nat): Disk
    requires done + k <= |LineOf(r)|
  {
    Disk(
      Some(Appended(d.live, d.nextIno, LineOf(r)[done..done + k])),
      d.rotated,
      if d.live.None? then d.nextIno + 1 else d.nextIno,
      if done < |LineOf(r)| - 1 <= done + k then d.history + [Stored(r)] else d.history)
  }

  function TextOf(live: Option<File>): Text {
    if live.None? then [] else live.value.text
  }

  function AfterWrite(job: Job, before: Text, done: nat): Pc {
    if done == |LineOf(job.r)| then Written(job) else Appending(job, before, done)
  }

  /** One partial write of appendFileSync. */
  ghost predicate AppendStep(s: State, p: Pid, job: Job, before: Text, done: nat, s': State)
    requires p in s.clients
  {
    exists k: nat :: done + k <= |LineOf(job.r)| && s' == s.Go(p, WriteSome(s.disk, job.r, done, k), AfterWrite(job, before, done + k))
  }

  ghost predicate WriteStep(s: State, p: Pid, s': State)
    requires s.Holds(p)
  {
    var d := s.disk;
    match s.clients[p].pc
    case Checking(job) =>
      if FileLock.HeldBy(s.lock, p) then s' == s.Go(p, d, Appending(job, TextOf(d.live), 0))
      else s' == s.Leave(p, None)
    case Appending(job, before, done) => AppendStep(s, p, job, before, done, s')
    case Written(job) =>
      d.live.Some? && s' == s.Leave(p, Some(Cache(job.next, d.live.value.ino, |d.live.value.text|)))
    case _ => false
  }

  /** Something threw: the record is given up, and the lock released. */
  predicate FailStep(s: State, p: Pid, s': State)
    requires s.Holds(p)
  {
    !s.clients[p].pc.Out? && s' == s.Leave(p, None)
  }

  ghost predicate HolderStep(c: Config, s: State, p: Pid, s': State) {
    s.Holds(p) && (ReadStep(s, p, s') || RotateStep(c, s, p, s') || WriteStep(s, p, s') || FailStep(s, p, s'))
  }

  /** A step of the lock protocol: whoever gets the lock enters, and only a writer that is done
      gives it back. */
  predicate LockStep(s: State, p: Pid, s': State) {
    && FileLock.Next(s.lock, p, s'.lock)
    && s'.disk == s.disk
    && (if p !in s.lock.pc then p !in s.clients && s'.clients == s.clients[p := Client(Out, None)]
        else if p !in s.clients || p !in s'.lock.pc then false
        else if s.lock.pc[p].Held? == s'.lock.pc[p].Held? then s'.clients == s.clients
        else if s'.lock.pc[p].Held? then s'.clients == s.clients[p := s.clients[p].(pc := Entered)]
        else s.clients[p].pc.Exit? && s'.clients == s.clients[p := s.clients[p].(pc := Out)])
  }

  /** Whatever can happen. */
  ghost predicate Happens(c: Config, s: State, p: Pid, s': State) {
    LockStep(s, p, s') || HolderStep(c, s, p, s')
  }

  /** A writer stops, dead or failed, while only it knows the head: a rotation has moved a file
      without a complete record aside, and its own record is not written yet. */
  predicate LosesHead(s: State, p: Pid, s': State) {
    && s.Holds(p) && !Findable(s.disk)
    && (!s'.lock.Live(p) || (p in s'.clients && s'.clients[p].pc.Exit?))
  }

  ghost predicate Next(c: Config, s: State, p: Pid, s': State) {
    Happens(c, s, p, s') && !LosesHead(s, p, s')
  }

  // ----- what is on disk

  /** The records of segments `i` down to 1, oldest first. */
  function RotatedRecords(rotated: map<nat, File>, i: nat): seq<Record> {
    if i == 0 then []
    else (if i in rotated then RecordsIn(rotated[i].text) else []) + RotatedRecords(rotated, i - 1)
  }

  function LiveRecords(live: Option<File>): seq<Record> {
    if live.None? then [] else RecordsIn(live.value.text)
  }

  /** What readAuditFile returns for segments maxFiles down to 1 and then the live file. */
  function OnDisk(c: Config, d: Disk): seq<Record> {
    RotatedRecords(d.rotated, c.maxFiles) + LiveRecords(d.live)
  }

  predicate IsSuffix<T(==)>(a: seq<T>, b: seq<T>) {
    |a| <= |b| && a == b[|b| - |a|..]
  }

  /** The head of the whole history. */
  function TrueHead(history: seq<Record>): Head {
    Head(HeadAfter(history, GENESIS), |history|)
  }

  /** Each record links to the one before it, and numbers are consecutive from 0. */
  predicate GoodHistory(c: Config, history: seq<Record>) {
    Chain(c.sha, history, GENESIS) && forall i :: 0 <= i < |history| ==> SeqOf(history[i]) == i
  }

  /** The newest record on disk is where currentHead looks for it. */
  predicate Findable(d: Disk) {
    d.history == [] || LiveRecords(d.live) != [] || LiveRecords(Newest(d.rotated)) != []
  }

  predicate DiskOk(c: Config, d: Disk) {
    && c.maxFiles >= 1
    && GoodHistory(c, d.history)
    && (forall i :: i in d.rotated ==> 1 <= i <= c.maxFiles)
    && IsSuffix(OnDisk(c, d), d.history)
    && (c.maxFiles >= 2 && d.history != [] ==> OnDisk(c, d) != [])
    && (d.live.Some? ==> d.live.value.ino < d.nextIno)
  }

  /** While the live file is still the one a cache describes, the cached head is right; and as long
      as it is the file the cache was made of, it holds a record. */
  predicate CacheOk(d: Disk, k: Cache) {
    && k.ino < d.nextIno
    && (d.live.Some? && d.live.value.ino == k.ino ==>
          && LiveRecords(d.live) != []
          && |d.live.value.text| >= k.size
          && (|d.live.value.text| == k.size ==> Closed(d.live.value.text) && k.head == TrueHead(d.history)))
  }

  predicate LiveClosed(d: Disk) {
    d.live.Some? ==> Closed(d.live.value.text)
  }

  /** The record continues the history. */
  predicate JobOk(c: Config, d: Disk, job: Job) {
    && WellFormed(Obj(job.r)) && JsonCanonical.Clean(Obj(job.r)) == Obj(Stored(job.r))
    && Links(c.sha, Stored(job.r), TrueHead(d.history).hash) && SeqOf(Stored(job.r)) == |d.history|
    && job.next == Head(HashOf(Stored(job.r)), |d.history| + 1)
  }

  /** The record is the newest of the history, and the head left for the next is right. */
  predicate Recorded(d: Disk, job: Job) {
    && d.history != [] && d.history[|d.history| - 1] == Stored(job.r) && job.next == TrueHead(d.history)
    && LiveRecords(d.live) != []
  }

  /** `done` units of the line are in the file, after what it held before. */
  predicate LineOk(d: Disk, r: Record, before: Text, done: nat) {
    && Closed(before) && done < |LineOf(r)|
    && TextOf(d.live) == before + LineOf(r)[..done]
    && (d.live.None? ==> done == 0)
  }

  predicate PcOk(c: Config, d: Disk, pc: Pc) {
    match pc
    case LiveMissed => LiveClosed(d) && LiveRecords(d.live) == []
    case Ready(head) => LiveClosed(d) && head == TrueHead(d.history)
    case Shift(job, i) => LiveClosed(d) && JobOk(c, d, job) && d.live.Some? && i < c.maxFiles && i + 1 !in d.rotated
    case Checking(job) => LiveClosed(d) && JobOk(c, d, job)
    case Appending(job, before, done) =>
      LineOk(d, job.r, before, done) && (if done < |LineOf(job.r)| - 1 then JobOk(c, d, job) else Recorded(d, job))
    case Written(job) => d.live.Some? && Closed(d.live.value.text) && Recorded(d, job)
    case _ => true
  }

  /** A writer's record, to be written yet, continues the history. */
  predicate Carries(pc: Pc) {
    pc.Shift? || pc.Checking? || (pc.Appending? && pc.done < |LineOf(pc.job.r)| - 1)
  }

  /** The head is where currentHead looks for it, or with the writer that holds the lock. */
  predicate HeadKept(s: State) {
    Findable(s.disk) || exists p :: p in s.clients && s.Holds(p) && Carries(s.clients[p].pc)
  }

  /** Only a holder of the lock is inside, and a holder is inside. */
  predicate ClientsOk(s: State) {
    && s.clients.Keys == s.lock.pc.Keys
    && (forall p :: p in s.clients && s.lock.Live(p) ==> (s.clients[p].pc.Out? <==> !s.lock.pc[p].Held?))
  }

  predicate CachesOk(s: State) {
    forall p :: p in s.clients && s.clients[p].cached.Some? ==> CacheOk(s.disk, s.clients[p].cached.value)
  }

  predicate PcsOk(c: Config, s: State) {
    forall p :: p in s.clients && s.lock.Live(p) ==> PcOk(c, s.disk, s.clients[p].pc)
  }

  ghost predicate Inv(c: Config, s: State) {
    FileLock.Inv(s.lock) && ClientsOk(s) && DiskOk(c, s.disk) && HeadKept(s) && CachesOk(s) && PcsOk(c, s)
  }
}
