/** The notes app: concurrent updates of one notes.json from any number of processes.

    Each process runs its updates one at a time, from a queue, each under the lock of `FileLock`. An
    update reads the list, changes it, writes a temporary file piece by piece and renames it over
    notes.json. A process may die between any two of these steps, or an update may fail at one. */
module Notes {
  import opened Wrappers
  import opened Texts
  import FileLock

  type Pid = FileLock.Pid

  datatype Note = Note(id: Text, text: Text, completed: bool)

  datatype Op = Add(note: Note) | Complete(id: Text)

  /** A file is written up to somewhere, or holds a whole list. */
  datatype Content = Torn | Whole(notes: seq<Note>)

  datatype Outcome = Committed | UnknownId | Failed

  datatype Pc = Out | Entered | Loaded(notes: seq<Note>) | Saving(notes: seq<Note>, tmp: Content) | Exit(outcome: Outcome)

  /** The updates a process has queued, the running one first, after `done` that have ended. */
  datatype Client = Client(queue: seq<Op>, done: nat, pc: Pc)

  /** The `ticket`-th update of process `pid`. */
  datatype Entry = Entry(pid: Pid, ticket: nat, op: Op)

  /** What the caller of an update was told. */
  datatype Ack = Ack(entry: Entry, outcome: Outcome)

  /** `committed` are the updates whose file was renamed into place, in that order. */
  datatype State = State(
    lock: FileLock.State,
    file: Option<Content>,
    clients: map<Pid, Client>,
    committed: seq<Entry>,
    acked: seq<Ack>)
  {
    predicate Holds(p: Pid) {
      p in clients && lock.Live(p) && lock.pc[p].Held?
    }

    function To(p: Pid, pc: Pc): State
      requires p in clients
    {
      this.(clients := clients[p := clients[p].(pc := pc)])
    }
  }

  function Start(base: Option<seq<Note>>): State {
    State(FileLock.Start, if base.Some? then Some(Whole(base.value)) else None, map[], [], [])
  }

  predicate HasNote(notes: seq<Note>, id: Text) {
    exists i :: 0 <= i < |notes| && notes[i].id == id
  }

  /** The first note with that id is marked. */
  function MarkCompleted(notes: seq<Note>, id: Text): seq<Note> {
    if notes == [] then []
    else if notes[0].id == id then [notes[0].(completed := true)] + notes[1..]
    else [notes[0]] + MarkCompleted(notes[1..], id)
  }

  function Apply(op: Op, notes: seq<Note>): seq<Note> {
    match op
    case Add(note) => notes + [note]
    case Complete(id) => MarkCompleted(notes, id)
  }

  // ----- the steps

  /** A handler is called: its update goes to the end of its process's queue. */
  predicate Submit(s: State, p: Pid, op: Op, s': State) {
    && p in s.clients && s.lock.Live(p)
    && s' == s.(clients := s.clients[p := s.clients[p].(queue := s.clients[p].queue + [op])])
  }

  function OutcomeOf(pc: Pc): Outcome {
    if pc.Exit? then pc.outcome else Failed
  }

  /** The running update ends, and its caller is told. */
  function Ended(s: State, p: Pid): State
    requires p in s.clients && s.clients[p].queue != []
  {
    var c := s.clients[p];
    s.(clients := s.clients[p := Client(c.queue[1..], c.done + 1, Out)],
       acked := s.acked + [Ack(Entry(p, c.done, c.queue[0]), OutcomeOf(c.pc))])
  }

  /** A step of the lock protocol: a process with an update goes for the lock, enters with it, and
      gives it back once the update is over. */
  predicate LockStep(s: State, p: Pid, s': State) {
    && FileLock.Next(s.lock, p, s'.lock)
    && (if p !in s.lock.pc then
          p !in s.clients && s' == s.(lock := s'.lock, clients := s.clients[p := Client([], 0, Out)])
        else
          p in s.clients && p in s'.lock.pc && Moves(s, p, s.lock.pc[p], s'.lock.pc[p], s'))
  }

  predicate Moves(s: State, p: Pid, from: FileLock.Pc, to: FileLock.Pc, s': State)
    requires p in s.clients
  {
    var t := s.(lock := s'.lock);
    if from.Idle? && !to.Idle? then s.clients[p].queue != [] && s' == t
    else if !from.Held? && to.Held? then s' == t.To(p, Entered)
    else if from.Held? && !to.Held? then s.clients[p].pc.Exit? && s' == t
    else if !from.Idle? && to.Idle? then s.clients[p].queue != [] && s' == Ended(t, p)
    else s' == t
  }

  /** The callback under the lock: readNotes, the change, writeNotes. */
  predicate UpdateStep(s: State, p: Pid, s': State)
    requires s.Holds(p)
  {
    var c := s.clients[p];
    match c.pc
    case Entered =>
      if s.file.None? then s' == s.To(p, Loaded([]))
      else if s.file.value.Torn? then s' == s.To(p, Exit(Failed))
      else s' == s.To(p, Loaded(s.file.value.notes))
    case Loaded(notes) =>
      && c.queue != []
      && (if c.queue[0].Complete? && !HasNote(notes, c.queue[0].id) then s' == s.To(p, Exit(UnknownId))
          else s' == s.To(p, Saving(Apply(c.queue[0], notes), Torn)))
    case Saving(notes, tmp) =>
      if tmp.Torn? then s' == s.To(p, Saving(notes, Whole(notes)))
      else c.queue != [] && s' == s.(file := Some(tmp), committed := s.committed + [Entry(p, c.done, c.queue[0])]).To(p, Exit(Committed))
    case _ => false
  }

  /** Something threw. */
  predicate FailStep(s: State, p: Pid, s': State)
    requires s.Holds(p)
  {
    (s.clients[p].pc.Entered? || s.clients[p].pc.Loaded? || s.clients[p].pc.Saving?) && s' == s.To(p, Exit(Failed))
  }

  predicate HolderStep(s: State, p: Pid, s': State) {
    s.Holds(p) && (UpdateStep(s, p, s') || FailStep(s, p, s'))
  }

  ghost predicate Next(s: State, p: Pid, s': State) {
    (exists op :: Submit(s, p, op, s')) || LockStep(s, p, s') || HolderStep(s, p, s')
  }

  // ----- the invariant

  /** The list after the committed updates, one after another. */
  function Fold(base: seq<Note>, committed: seq<Entry>): seq<Note> {
    if committed == [] then base
    else Apply(committed[|committed| - 1].op, Fold(base, committed[..|committed| - 1]))
  }

  function BaseNotes(base: Option<seq<Note>>): seq<Note> {
    if base.Some? then base.value else []
  }

  function Contents(file: Option<Content>): seq<Note> {
    if file.Some? && file.value.Whole? then file.value.notes else []
  }

  /** notes.json is whole, and holds every committed update. */
  predicate FileOk(base: Option<seq<Note>>, s: State) {
    && (s.file.Some? ==> s.file.value.Whole?)
    && Contents(s.file) == Fold(BaseNotes(base), s.committed)
  }

  /** A committed completion found its note. */
  predicate Effective(base: seq<Note>, committed: seq<Entry>) {
    forall i :: 0 <= i < |committed| && committed[i].op.Complete? ==> HasNote(Fold(base, committed[..i]), committed[i].op.id)
  }

  /** A process inside is working on the list as it is. */
  predicate PcOk(s: State, c: Client) {
    match c.pc
    case Loaded(notes) => notes == Contents(s.file)
    case Saving(notes, tmp) =>
      && c.queue != [] && notes == Apply(c.queue[0], Contents(s.file)) && (tmp.Whole? ==> tmp.notes == notes)
      && (c.queue[0].Complete? ==> HasNote(Contents(s.file), c.queue[0].id))
    case _ => true
  }

  /** A process is inside exactly while it holds the lock, and goes for it with an update queued. */
  predicate InStep(at: FileLock.Pc, c: Client) {
    && (at.Held? ==> !c.pc.Out?) && (!at.Held? ==> c.pc.Out? || (c.pc.Exit? && (at.CheckRelease? || at.UnlinkMine?)))
    && (!at.Idle? ==> c.queue != [])
  }

  predicate ClientsOk(s: State) {
    && s.clients.Keys == s.lock.pc.Keys
    && (forall p :: p in s.clients && s.lock.Live(p) ==> InStep(s.lock.pc[p], s.clients[p]))
    && (forall p :: p in s.clients && s.Holds(p) ==> PcOk(s, s.clients[p]))
  }

  /** The running update of a process that has committed it. */
  predicate JustCommitted(c: Client) {
    c.pc == Exit(Committed) && c.queue != []
  }

  /** A committed update is over, or is the running one of its process. */
  predicate EntryOk(s: State, e: Entry) {
    && e.pid in s.clients
    && var c := s.clients[e.pid];
      e.ticket < c.done || (e.ticket == c.done && JustCommitted(c) && e.op == c.queue[0])
  }

  predicate LogOk(s: State) {
    && (forall i :: 0 <= i < |s.committed| ==> EntryOk(s, s.committed[i]))
    && (forall i, j :: 0 <= i < j < |s.committed| && s.committed[i].pid == s.committed[j].pid ==>
          s.committed[i].ticket < s.committed[j].ticket)
    && (forall p :: p in s.clients && s.clients[p].pc == Exit(Committed) ==>
          s.clients[p].queue != [] && Entry(p, s.clients[p].done, s.clients[p].queue[0]) in s.committed)
  }

  /** A caller was told of success exactly when its update is committed. */
  predicate AckOk(s: State, a: Ack) {
    && a.entry.pid in s.clients && a.entry.ticket < s.clients[a.entry.pid].done
    && (a.outcome.Committed? <==> a.entry in s.committed)
    && (forall i :: 0 <= i < |s.committed| && s.committed[i].pid == a.entry.pid && s.committed[i].ticket == a.entry.ticket ==>
          s.committed[i] == a.entry)
  }

  predicate AcksOk(s: State) {
    forall i :: 0 <= i < |s.acked| ==> AckOk(s, s.acked[i])
  }

  ghost predicate Inv(base: Option<seq<Note>>, s: State) {
    && FileLock.Inv(s.lock) && ClientsOk(s) && FileOk(base, s) && Effective(BaseNotes(base), s.committed)
    && LogOk(s) && AcksOk(s)
  }

  // ----- every step keeps it

  lemma OneHolder(s: State, p: Pid, q: Pid)
    requires FileLock.Inv(s.lock) && s.Holds(p) && s.Holds(q)
    ensures p == q
  {
    assert FileLock.MainOk(s.lock, p, s.lock.pc[p]) && FileLock.MainOk(s.lock, q, s.lock.pc[q]);
  }

  lemma SubmitKeepsClients(s: State, p: Pid, op: Op, s': State)
    requires ClientsOk(s) && Submit(s, p, op, s')
    ensures ClientsOk(s')
  {
    hide HasNote, Apply;
    assert s.clients[p].queue != [] ==> s'.clients[p].queue[0] == s.clients[p].queue[0];
  }

  lemma SubmitKeepsInv(base: Option<seq<Note>>, s: State, p: Pid, op: Op, s': State)
    requires Inv(base, s) && Submit(s, p, op, s')
    ensures Inv(base, s')
  {
    SubmitKeepsClients(s, p, op, s');
    assert s.clients[p].queue != [] ==> s'.clients[p].queue[0] == s.clients[p].queue[0];
    hide FileLock.Inv, Effective, Fold, ClientsOk, LogOk, AcksOk;
    QuietKeepsLog(s, p, s');
  }

  lemma InsideOk(s: State, p: Pid, s': State, pc: Pc)
    requires s.Holds(p) && PcOk(s, s.clients[p]) && HolderStep(s, p, s') && s' == s.To(p, pc)
    requires s.file.Some? ==> s.file.value.Whole?
    ensures !s.clients[p].pc.Exit? && !s.clients[p].pc.Out? && !pc.Out? && PcOk(s', s'.clients[p])
  {
    hide HasNote, Apply;
    var c := s.clients[p];
    assert s'.clients[p] == c.(pc := pc) && !c.pc.Exit? && !c.pc.Out?;
    assert c.pc.Entered? ==> PcOk(s', s'.clients[p]);
    assert c.pc.Loaded? ==> PcOk(s', s'.clients[p]);
  }

  lemma SameFileSamePc(s: State, s': State)
    requires s'.file == s.file
    ensures forall c :: PcOk(s', c) == PcOk(s, c)
  {
    hide HasNote, Apply;
  }

  /** A process goes on with the same running update, and does not commit it. */
  predicate GoesOn(c: Client, c': Client) {
    && c'.done == c.done && (c.queue != [] ==> c'.queue != [] && c'.queue[0] == c.queue[0])
    && (c'.pc == c.pc || (c'.pc != Exit(Committed) && c.pc != Exit(Committed)))
  }

  lemma QuietKeepsLog(s: State, p: Pid, s': State)
    requires LogOk(s) && AcksOk(s) && s'.committed == s.committed && s'.acked == s.acked
    requires p in s'.clients && s'.clients == s.clients[p := s'.clients[p]]
    requires p in s.clients ==> GoesOn(s.clients[p], s'.clients[p])
    requires p !in s.clients ==> s'.clients[p].pc.Out?
    ensures LogOk(s') && AcksOk(s')
  {
    assert forall e | EntryOk(s, e) :: EntryOk(s', e);
    assert forall a | AckOk(s, a) :: AckOk(s', a);
  }

  lemma InsideKeepsClients(s: State, p: Pid, s': State, pc: Pc)
    requires ClientsOk(s) && s.Holds(p) && s' == s.To(p, pc) && !pc.Out? && PcOk(s', s'.clients[p])
    ensures ClientsOk(s')
  {
    SameFileSamePc(s, s');
    hide PcOk;
  }

  /** The callback's steps before the rename change no file. */
  lemma InsideKeepsInv(base: Option<seq<Note>>, s: State, p: Pid, s': State, pc: Pc)
    requires Inv(base, s) && s.Holds(p) && HolderStep(s, p, s') && s' == s.To(p, pc) && pc != Exit(Committed)
    ensures Inv(base, s')
  {
    assert PcOk(s, s.clients[p]);
    InsideOk(s, p, s', pc);
    hide FileLock.Inv, Effective, Fold, UpdateStep, FailStep, PcOk, ClientsOk, LogOk, AcksOk;
    InsideKeepsClients(s, p, s', pc);
    QuietKeepsLog(s, p, s');
  }

  lemma FoldStep(base: seq<Note>, committed: seq<Entry>, e: Entry)
    ensures Fold(base, committed + [e]) == Apply(e.op, Fold(base, committed))
  {
    assert (committed + [e])[..|committed|] == committed;
  }

  lemma EffectiveStep(base: seq<Note>, committed: seq<Entry>, e: Entry)
    requires Effective(base, committed) && (e.op.Complete? ==> HasNote(Fold(base, committed), e.op.id))
    ensures Effective(base, committed + [e])
  {
    hide Fold, HasNote;
    forall i | 0 <= i <= |committed| && (committed + [e])[i].op.Complete?
      ensures HasNote(Fold(base, (committed + [e])[..i]), (committed + [e])[i].op.id)
    {
      assert (committed + [e])[..i] == committed[..i];
      assert committed[..|committed|] == committed;
    }
  }

  lemma RenameKeepsLog(s: State, p: Pid, s': State)
    requires LogOk(s) && p in s.clients && s.clients[p].pc.Saving? && s.clients[p].queue != []
    requires s'.clients == s.clients[p := s.clients[p].(pc := Exit(Committed))]
    requires s'.committed == s.committed + [Entry(p, s.clients[p].done, s.clients[p].queue[0])]
    ensures LogOk(s')
  {
    var e := Entry(p, s.clients[p].done, s.clients[p].queue[0]);
    assert s'.committed[|s.committed|] == e;
    forall i | 0 <= i < |s'.committed| ensures EntryOk(s', s'.committed[i]) {
      if i < |s.committed| { assert EntryOk(s, s.committed[i]); }
    }
    forall i | 0 <= i < |s.committed| && s.committed[i].pid == p ensures s.committed[i].ticket < e.ticket {
      assert EntryOk(s, s.committed[i]);
    }
    forall q | q in s'.clients && s'.clients[q].pc == Exit(Committed)
      ensures s'.clients[q].queue != [] && Entry(q, s'.clients[q].done, s'.clients[q].queue[0]) in s'.committed
    {
    }
  }

  lemma RenameKeepsAcks(s: State, p: Pid, s': State)
    requires AcksOk(s) && p in s.clients && s.clients[p].queue != []
    requires s'.clients == s.clients[p := s.clients[p].(pc := Exit(Committed))] && s'.acked == s.acked
    requires s'.committed == s.committed + [Entry(p, s.clients[p].done, s.clients[p].queue[0])]
    ensures AcksOk(s')
  {
    forall i | 0 <= i < |s'.acked| ensures AckOk(s', s'.acked[i]) {
      assert AckOk(s, s.acked[i]);
    }
  }

  lemma RenameKeepsClients(s: State, p: Pid, s': State)
    requires FileLock.Inv(s.lock) && ClientsOk(s) && s.Holds(p)
    requires s'.clients == s.clients[p := s.clients[p].(pc := Exit(Committed))] && s'.lock == s.lock
    ensures ClientsOk(s')
  {
    hide FileLock.Inv;
    forall q | q in s'.clients && s'.Holds(q) ensures PcOk(s', s'.clients[q]) {
      OneHolder(s, p, q);
    }
  }

  lemma RenameKeepsInv(base: Option<seq<Note>>, s: State, p: Pid, s': State)
    requires Inv(base, s) && s.Holds(p) && UpdateStep(s, p, s')
    requires s.clients[p].pc.Saving? && s.clients[p].pc.tmp.Whole?
    ensures Inv(base, s')
  {
    assert PcOk(s, s.clients[p]);
    var e := Entry(p, s.clients[p].done, s.clients[p].queue[0]);
    hide LogOk, AcksOk, ClientsOk, FileLock.Inv, Fold, Effective, PcOk, HasNote;
    RenameKeepsLog(s, p, s');
    RenameKeepsAcks(s, p, s');
    RenameKeepsClients(s, p, s');
    FoldStep(BaseNotes(base), s.committed, e);
    EffectiveStep(BaseNotes(base), s.committed, e);
  }

  lemma HolderStepKeepsInv(base: Option<seq<Note>>, s: State, p: Pid, s': State)
    requires Inv(base, s) && HolderStep(s, p, s')
    ensures Inv(base, s')
  {
    hide Inv, HasNote, Apply;
    if UpdateStep(s, p, s') && s.clients[p].pc.Saving? && s.clients[p].pc.tmp.Whole? {
      RenameKeepsInv(base, s, p, s');
    } else {
      InsideKeepsInv(base, s, p, s', s'.clients[p].pc);
    }
  }

  /** The process that takes a step of the lock protocol. */
  lemma LockStepper(s: State, p: Pid, s': State)
    requires ClientsOk(s) && LockStep(s, p, s') && FileLock.ProcEffect(s.lock, p, s'.lock)
    ensures p in s'.clients && s'.clients == s.clients[p := s'.clients[p]] && s'.file == s.file
    ensures s'.lock.Live(p) ==> InStep(s'.lock.pc[p], s'.clients[p])
    ensures s'.Holds(p) ==> PcOk(s', s'.clients[p])
  {
    assert p !in s.lock.pc ==> s'.lock.pc[p] == FileLock.Idle;
    SameFileSamePc(s, s');
    assert forall c: Client | c.pc.Entered? :: PcOk(s, c);
    hide FileLock.Next, PcOk, FileLock.Carried, FileLock.Mine, FileLock.MyBreak;
  }

  lemma LockStepKeepsClients(s: State, p: Pid, s': State)
    requires ClientsOk(s) && LockStep(s, p, s') && FileLock.ProcEffect(s.lock, p, s'.lock)
    ensures ClientsOk(s')
  {
    LockStepper(s, p, s');
    SameFileSamePc(s, s');
    hide LockStep, PcOk, InStep, FileLock.Carried, FileLock.Mine, FileLock.MyBreak;
  }

  lemma EndedKeepsLog(s: State, p: Pid, s': State)
    requires LogOk(s) && p in s.clients && s.clients[p].queue != []
    requires s'.clients == Ended(s, p).clients && s'.committed == s.committed
    ensures LogOk(s')
  {
    assert forall e | EntryOk(s, e) :: EntryOk(s', e);
  }

  lemma EndedKeepsAcks(s: State, p: Pid, s': State)
    requires LogOk(s) && AcksOk(s) && p in s.clients && s.clients[p].queue != []
    requires s'.clients == Ended(s, p).clients && s'.committed == s.committed && s'.acked == Ended(s, p).acked
    ensures AcksOk(s')
  {
    var c := s.clients[p];
    var a := Ack(Entry(p, c.done, c.queue[0]), OutcomeOf(c.pc));
    forall i | 0 <= i < |s'.acked| ensures AckOk(s', s'.acked[i]) {
      if i < |s.acked| {
        assert AckOk(s, s.acked[i]);
      } else {
        forall j | 0 <= j < |s.committed| && s.committed[j].pid == p && s.committed[j].ticket == c.done
          ensures s.committed[j] == a.entry && c.pc == Exit(Committed)
        {
          assert EntryOk(s, s.committed[j]);
        }
      }
    }
  }

  lemma HeldAfterWriting(s: State, p: Pid, s': State)
    requires LockStep(s, p, s')
    ensures p in s.lock.pc && p in s'.lock.pc && s'.lock.pc[p].Held? ==>
      s.lock.pc[p].Held? || (s.lock.Live(p) && s.lock.pc[p].Writing?)
  {
    hide FileLock.MayJudgeStale, FileLock.MayJudgeFresh, FileLock.Abandons;
  }

  lemma LockStepKeepsLog(s: State, p: Pid, s': State)
    requires ClientsOk(s) && LogOk(s) && AcksOk(s) && LockStep(s, p, s')
    ensures LogOk(s') && AcksOk(s')
  {
    HeldAfterWriting(s, p, s');
    hide FileLock.Next;
    if p in s.lock.pc && !s.lock.pc[p].Idle? && !s.lock.pc[p].Held? && s'.lock.pc[p].Idle? {
      hide LogOk, AcksOk;
      EndedKeepsLog(s, p, s');
      EndedKeepsAcks(s, p, s');
    } else {
      hide PcOk;
      assert p in s.clients ==> GoesOn(s.clients[p], s'.clients[p]);
      QuietKeepsLog(s, p, s');
    }
  }

  lemma LockStepKeepsInv(base: Option<seq<Note>>, s: State, p: Pid, s': State)
    requires Inv(base, s) && LockStep(s, p, s')
    ensures Inv(base, s')
  {
    FileLock.StepKeepsInv(s.lock, p, s'.lock);
    FileLock.HappensProcEffect(s.lock, p, s'.lock);
    LockStepKeepsClients(s, p, s');
    LockStepKeepsLog(s, p, s');
    hide FileLock.Inv, FileLock.Next, FileLock.ProcEffect, ClientsOk, LogOk, AcksOk, Effective, Fold;
  }

  // ----- what it is for

  ghost predicate Run(base: Option<seq<Note>>, r: seq<State>) {
    && |r| > 0 && r[0] == Start(base)
    && forall k :: 0 <= k < |r| - 1 ==> Follows(r[k], r[k + 1])
  }

  ghost predicate Follows(s: State, s': State) {
    exists p :: Next(s, p, s')
  }

  lemma StepKeepsInv(base: Option<seq<Note>>, s: State, s': State)
    requires Inv(base, s) && Follows(s, s')
    ensures Inv(base, s') && Prefix(s.committed, s'.committed) && Prefix(s.acked, s'.acked)
  {
    hide Inv;
    var p :| Next(s, p, s');
    if LockStep(s, p, s') {
      LockStepKeepsInv(base, s, p, s');
    } else if HolderStep(s, p, s') {
      HolderStepKeepsInv(base, s, p, s');
    } else {
      var op :| Submit(s, p, op, s');
      SubmitKeepsInv(base, s, p, op, s');
    }
    hide FileLock.Next;
  }

  predicate Prefix<T(==)>(a: seq<T>, b: seq<T>) {
    |a| <= |b| && b[..|a|] == a
  }

  lemma {:induction false} RunKeepsInv(base: Option<seq<Note>>, r: seq<State>, k: nat)
    requires Run(base, r) && k < |r|
    ensures Inv(base, r[k])
  {
    hide Follows;
    if k > 0 {
      hide Inv;
      RunKeepsInv(base, r, k - 1);
      assert Follows(r[k - 1], r[k - 1 + 1]);
      StepKeepsInv(base, r[k - 1], r[k]);
    }
  }

  lemma PrefixTrans<T>(a: seq<T>, b: seq<T>, c: seq<T>)
    requires Prefix(a, b) && Prefix(b, c)
    ensures Prefix(a, c)
  {
    assert c[..|a|] == c[..|b|][..|a|];
  }

  /** Updates are never taken back. */
  lemma {:induction false} LogOnlyGrows(base: Option<seq<Note>>, r: seq<State>, j: nat, k: nat)
    requires Run(base, r) && j <= k < |r|
    ensures Prefix(r[j].committed, r[k].committed) && Prefix(r[j].acked, r[k].acked)
  {
    hide Follows, Inv;
    if j < k {
      LogOnlyGrows(base, r, j, k - 1);
      RunKeepsInv(base, r, k - 1);
      assert Follows(r[k - 1], r[k - 1 + 1]);
      StepKeepsInv(base, r[k - 1], r[k]);
      hide Run, Prefix;
      PrefixTrans(r[j].committed, r[k - 1].committed, r[k].committed);
      PrefixTrans(r[j].acked, r[k - 1].acked, r[k].acked);
    }
  }

  /** Later lists keep every note, and every completion. */
  predicate Extends(a: seq<Note>, b: seq<Note>) {
    |a| <= |b| && forall i :: 0 <= i < |a| ==> b[i] == a[i] || b[i] == a[i].(completed := true)
  }

  lemma {:induction false} MarkExtends(notes: seq<Note>, id: Text)
    ensures Extends(notes, MarkCompleted(notes, id))
    ensures HasNote(notes, id) ==> exists i :: 0 <= i < |notes| && notes[i].id == id && MarkCompleted(notes, id)[i].completed
  {
    if notes != [] && notes[0].id != id {
      MarkExtends(notes[1..], id);
      var after := MarkCompleted(notes, id);
      assert after[1..] == MarkCompleted(notes[1..], id);
      if HasNote(notes, id) {
        var k :| 0 <= k < |notes| && notes[k].id == id;
        assert notes[1..][k - 1].id == id;
        var i :| 0 <= i < |notes[1..]| && notes[1..][i].id == id && MarkCompleted(notes[1..], id)[i].completed;
        assert notes[i + 1].id == id && after[i + 1].completed;
      }
    } else if notes != [] {
      assert notes[0].id == id && MarkCompleted(notes, id)[0].completed;
    }
  }

  /** A list shows an update: the note added, or a note with that id completed. */
  predicate Shows(notes: seq<Note>, op: Op) {
    match op
    case Add(note) => exists i :: 0 <= i < |notes| && (notes[i] == note || notes[i] == note.(completed := true))
    case Complete(id) => exists i :: 0 <= i < |notes| && notes[i].id == id && notes[i].completed
  }

  lemma ShowsStays(a: seq<Note>, b: seq<Note>, op: Op)
    requires Extends(a, b) && Shows(a, op)
    ensures Shows(b, op)
  {
    match op
    case Add(note) =>
      var i :| 0 <= i < |a| && (a[i] == note || a[i] == note.(completed := true));
      assert b[i] == note || b[i] == note.(completed := true);
    case Complete(id) =>
      var i :| 0 <= i < |a| && a[i].id == id && a[i].completed;
      assert b[i].id == id && b[i].completed;
  }

  lemma ApplyShows(notes: seq<Note>, op: Op)
    requires op.Complete? ==> HasNote(notes, op.id)
    ensures Extends(notes, Apply(op, notes)) && Shows(Apply(op, notes), op)
  {
    match op
    case Add(note) =>
      assert (notes + [note])[|notes|] == note;
    case Complete(id) =>
      MarkExtends(notes, id);
      var i :| 0 <= i < |notes| && notes[i].id == id && MarkCompleted(notes, id)[i].completed;
      assert MarkCompleted(notes, id)[i].id == id;
  }

  /** Every committed update shows in the list after all of them. */
  lemma {:induction false} FoldShows(base: seq<Note>, committed: seq<Entry>, i: nat)
    requires Effective(base, committed) && i < |committed|
    ensures Shows(Fold(base, committed), committed[i].op)
    decreases |committed|
  {
    hide HasNote, Shows, Extends, Apply;
    var n := |committed| - 1;
    var notes := Fold(base, committed[..n]);
    ApplyShows(notes, committed[n].op);
    if i < n {
      forall j | 0 <= j < n && committed[..n][j].op.Complete?
        ensures HasNote(Fold(base, committed[..n][..j]), committed[..n][j].op.id)
      {
        assert committed[..n][..j] == committed[..j];
      }
      FoldShows(base, committed[..n], i);
      ShowsStays(notes, Apply(committed[n].op, notes), committed[i].op);
    }
  }

  /** At every moment of every run notes.json is a whole list: the updates renamed into place so
      far, applied one after another to the list there was, each process's in the order it queued
      them, each once. */
  lemma FileIsFold(base: Option<seq<Note>>, r: seq<State>, k: nat)
    requires Run(base, r) && k < |r|
    ensures r[k].file.Some? ==> r[k].file.value == Whole(Fold(BaseNotes(base), r[k].committed))
    ensures r[k].file.None? ==> Fold(BaseNotes(base), r[k].committed) == []
    ensures forall i, j :: 0 <= i < j < |r[k].committed| && r[k].committed[i].pid == r[k].committed[j].pid ==>
      r[k].committed[i].ticket < r[k].committed[j].ticket
  {
    RunKeepsInv(base, r, k);
    hide Run, Fold;
  }

  /** No lost update: an update for which updateNotes resolved shows in every later list; one for
      which it rejected, or resolved to an unknown id, never took effect. */
  lemma NoLostUpdate(base: Option<seq<Note>>, r: seq<State>, j: nat, k: nat, i: nat)
    requires Run(base, r) && j <= k < |r| && i < |r[j].acked|
    ensures var a := r[j].acked[i];
      && (a.outcome.Committed? ==> Shows(Contents(r[k].file), a.entry.op))
      && (!a.outcome.Committed? ==> forall n :: 0 <= n < |r[k].committed| ==>
            r[k].committed[n].pid != a.entry.pid || r[k].committed[n].ticket != a.entry.ticket)
  {
    RunKeepsInv(base, r, k);
    LogOnlyGrows(base, r, j, k);
    var s, a := r[k], r[j].acked[i];
    hide Run, Shows, Fold, FileLock.Inv, ClientsOk, LogOk, Effective;
    assert s.acked[i] == s.acked[..|r[j].acked|][i];
    assert AckOk(s, a);
    if a.outcome.Committed? {
      var n :| 0 <= n < |s.committed| && s.committed[n] == a.entry;
      FoldShows(BaseNotes(base), s.committed, n);
    }
  }
}
