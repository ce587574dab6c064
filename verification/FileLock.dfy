/** The cross-process lock file protocol, as interleaved file system steps.

    A lock is a file created with O_EXCL. Its creator holds it until it unlinks it; a holder that
    died leaves it behind, and another process may break it, but only while it holds a second
    O_EXCL file, `<path>.break`. Every system call is one step here, and may fail; any number of
    processes take steps in any order, and a process may die between any two of them.

    The assumptions the protocol rests on are guards of the steps:
    - pids and inode numbers are never reused, and an owner line is written into one file only;
    - a half-written file is judged by its age, and is judged stale only once its creator no
      longer goes on to hold it (`Abandoned`, `BreakAbandoned`);
    - `<path>.break` is never abandoned: its creator neither dies nor goes on without having
      unlinked it, as it does when its write or its unlinking fails (`Abandons`). */
module FileLock {
  import opened Wrappers

  type Pid = nat
  type Ino = nat

  /** A lock file holds nothing usable, or its owner's whole line: pid and token. */
  datatype Content = Torn | Owner(pid: Pid, token: Ino)

  datatype Inode = Inode(creator: Pid, content: Content)

  /** Where a process is. `i` and `c` are the main lock as observed, `b` is its own `.break`. */
  datatype Pc =
    | Idle
    | Trying
    | Writing(i: Ino)
    | Held(i: Ino)
    | CheckRelease(i: Ino)
    | UnlinkMine(i: Ino)
    // breakIfStale: observe the main lock and judge it
    | OpenMain
    | ReadMain(i: Ino)
    | JudgeMain(i: Ino, c: Content)
    // ... judged stale: take `.break`, look again, unlink, drop `.break`
    | MakeBreak(i: Ino, c: Content)
    | WriteBreak(b: Ino, i: Ino, c: Content)
    | ReopenMain(b: Ino, i: Ino, c: Content)
    | RereadMain(b: Ino, i: Ino, c: Content)
    | UnlinkStale(b: Ino, i: Ino)
    | CheckBreak(b: Ino)
    | UnlinkBreak(b: Ino)
    // ... `.break` is taken: clear it if whoever took it is gone
    | OpenBreak
    | ReadBreak(i: Ino)
    | JudgeBreak(i: Ino, c: Content)
    | StatBreak(i: Ino)
    | UnlinkDeadBreak(i: Ino)

  datatype State = State(
    main: Option<Ino>,
    brk: Option<Ino>,
    inodes: seq<Inode>,
    pc: map<Pid, Pc>,
    dead: set<Pid>)
  {
    /** Process `p` moves on; nothing else changes. */
    function To(p: Pid, next: Pc): State {
      this.(pc := pc[p := next])
    }

    function Write(i: Ino, c: Content): State
      requires i < |inodes|
    {
      this.(inodes := inodes[i := inodes[i].(content := c)])
    }

    predicate Live(p: Pid) {
      p in pc && p !in dead
    }
  }

  const Start := State(None, None, [], map[], {})

  /** The main lock file a process at `pc` created, and has neither unlinked nor given up on. */
  function Mine(pc: Pc): Option<Ino> {
    if pc.Writing? || pc.Held? || pc.CheckRelease? || pc.UnlinkMine? then Some(pc.i) else None
  }

  /** The `.break` file a process at `pc` created and has not unlinked. */
  function MyBreak(pc: Pc): Option<Ino> {
    if pc.WriteBreak? || pc.ReopenMain? || pc.RereadMain? || pc.UnlinkStale? || pc.CheckBreak? || pc.UnlinkBreak?
    then Some(pc.b) else None
  }

  /** Whoever created inode `i` as the main lock died, or gave it up. */
  predicate Abandoned(s: State, i: Ino) {
    i < |s.inodes| && !(s.Live(s.inodes[i].creator) && Mine(s.pc[s.inodes[i].creator]) == Some(i))
  }

  predicate BreakAbandoned(s: State, b: Ino) {
    b < |s.inodes| && !(s.Live(s.inodes[b].creator) && MyBreak(s.pc[s.inodes[b].creator]) == Some(b))
  }

  /** isStale: a readable owner is stale exactly when its pid is gone; otherwise the age decides,
      which is only trusted to say "stale" of an abandoned file. */
  predicate MayJudgeStale(s: State, c: Content, abandoned: bool) {
    match c
    case Owner(pid, _) => pid in s.dead
    case Torn => abandoned
  }

  predicate MayJudgeFresh(s: State, c: Content) {
    c.Owner? ==> c.pid !in s.dead
  }

  /** breakIfStale returned: the caller tries again, or its deadline has passed. */
  predicate Back(s: State, p: Pid, s': State) {
    s' == s.To(p, Trying) || s' == s.To(p, Idle)
  }

  /** Reading the file at a path gives `c`. */
  predicate Reads(s: State, path: Option<Ino>, c: Content) {
    path.Some? && path.value < |s.inodes| && s.inodes[path.value].content == c
  }

  /** Taking the lock, and giving it back: acquireFileLock, tryCreate, removeIfOwned. */
  predicate AcquireStep(s: State, p: Pid, s': State)
    requires s.Live(p)
  {
    match s.pc[p]
    case Idle => s' == s.To(p, Trying)
    case Trying =>
      if s.main.None? then
        var i := |s.inodes|;
        s' == s.(main := Some(i), inodes := s.inodes + [Inode(p, Torn)]).To(p, Writing(i))
      else s' == s.To(p, OpenMain)
    case Writing(i) => i < |s.inodes| && s' == s.Write(i, Owner(p, i)).To(p, Held(i))
    case Held(i) => s' == s.To(p, CheckRelease(i))
    case CheckRelease(i) => s' == s.To(p, if Reads(s, s.main, Owner(p, i)) then UnlinkMine(i) else Idle)
    case UnlinkMine(i) => s' == s.(main := None).To(p, Idle)
    case _ => false
  }

  /** Observing the main lock and judging it: observe, isStale. */
  predicate JudgeStep(s: State, p: Pid, s': State)
    requires s.Live(p)
  {
    match s.pc[p]
    case OpenMain => if s.main.Some? then s' == s.To(p, ReadMain(s.main.value)) else Back(s, p, s')
    case ReadMain(i) => i < |s.inodes| && s' == s.To(p, JudgeMain(i, s.inodes[i].content))
    case JudgeMain(i, c) =>
      || (MayJudgeStale(s, c, Abandoned(s, i)) && s' == s.To(p, MakeBreak(i, c)))
      || (MayJudgeFresh(s, c) && Back(s, p, s'))
    case _ => false
  }

  /** Breaking a main lock that was judged stale. */
  predicate BreakStep(s: State, p: Pid, s': State)
    requires s.Live(p)
  {
    match s.pc[p]
    case MakeBreak(i, c) =>
      if s.brk.None? then
        var b := |s.inodes|;
        s' == s.(brk := Some(b), inodes := s.inodes + [Inode(p, Torn)]).To(p, WriteBreak(b, i, c))
      else s' == s.To(p, OpenBreak)
    case WriteBreak(b, i, c) => b < |s.inodes| && s' == s.Write(b, Owner(p, b)).To(p, ReopenMain(b, i, c))
    case ReopenMain(b, i, c) => s' == s.To(p, if s.main == Some(i) then RereadMain(b, i, c) else CheckBreak(b))
    case RereadMain(b, i, c) =>
      i < |s.inodes| && s' == s.To(p, if s.inodes[i].content == c then UnlinkStale(b, i) else CheckBreak(b))
    case UnlinkStale(b, i) => s' == s.(main := None).To(p, CheckBreak(b))
    case CheckBreak(b) => if Reads(s, s.brk, Owner(p, b)) then s' == s.To(p, UnlinkBreak(b)) else Back(s, p, s')
    case UnlinkBreak(b) => Back(s.(brk := None), p, s')
    case _ => false
  }

  /** `.break` was taken: clearing it if whoever took it is gone. */
  predicate ClearStep(s: State, p: Pid, s': State)
    requires s.Live(p)
  {
    match s.pc[p]
    case OpenBreak => if s.brk.Some? then s' == s.To(p, ReadBreak(s.brk.value)) else Back(s, p, s')
    case ReadBreak(i) => i < |s.inodes| && s' == s.To(p, JudgeBreak(i, s.inodes[i].content))
    case JudgeBreak(i, c) =>
      || (MayJudgeStale(s, c, BreakAbandoned(s, i)) && s' == s.To(p, StatBreak(i)))
      || (MayJudgeFresh(s, c) && Back(s, p, s'))
    case StatBreak(i) => if s.brk == Some(i) then s' == s.To(p, UnlinkDeadBreak(i)) else Back(s, p, s')
    case UnlinkDeadBreak(i) => Back(s.(brk := None), p, s')
    case _ => false
  }

  /** A system call fails: no file changes, and the process goes on to clean up, or gives up. */
  predicate ErrorStep(s: State, p: Pid, s': State)
    requires s.Live(p)
  {
    match s.pc[p]
    case Trying | CheckRelease(_) | UnlinkMine(_) => s' == s.To(p, Idle)
    case Writing(i) =>
      || s' == s.To(p, Idle)            // the audit package leaves the file as it is
      || s' == s.To(p, UnlinkMine(i))   // the notes app takes it back
    case WriteBreak(b, _, _) =>
      || Back(s, p, s')                 // likewise
      || s' == s.To(p, UnlinkBreak(b))
    case ReopenMain(b, _, _) => s' == s.To(p, CheckBreak(b))
    case RereadMain(b, _, _) => s' == s.To(p, CheckBreak(b))
    case UnlinkStale(b, _) => s' == s.To(p, CheckBreak(b))
    case Idle | Held(_) => false
    case _ => Back(s, p, s')
  }

  /** One system call of the live process `p`. */
  predicate Step(s: State, p: Pid, s': State) {
    && s.Live(p)
    && (AcquireStep(s, p, s') || JudgeStep(s, p, s') || BreakStep(s, p, s') || ClearStep(s, p, s') || ErrorStep(s, p, s'))
  }

  predicate Spawn(s: State, p: Pid, s': State) {
    p !in s.pc && p !in s.dead && s' == s.To(p, Idle)
  }

  predicate Die(s: State, p: Pid, s': State) {
    s.Live(p) && s' == s.(dead := s.dead + {p})
  }

  /** Whatever can happen. */
  predicate Happens(s: State, p: Pid, s': State) {
    Step(s, p, s') || Spawn(s, p, s') || Die(s, p, s')
  }

  /** `p` dies, or goes on, and the `.break` it created is still there. */
  predicate Abandons(s: State, p: Pid, s': State) {
    && p in s.pc && MyBreak(s.pc[p]).Some? && s'.brk == s.brk == MyBreak(s.pc[p])
    && !(s'.Live(p) && MyBreak(s'.pc[p]) == s.brk)
  }

  predicate Next(s: State, p: Pid, s': State) {
    Happens(s, p, s') && !Abandons(s, p, s')
  }

  // ----- the invariant

  predicate Bounded(s: State) {
    && (s.main.Some? ==> s.main.value < |s.inodes|)
    && (s.brk.Some? ==> s.brk.value < |s.inodes|)
    && (forall i :: 0 <= i < |s.inodes| && s.inodes[i].content.Owner? ==>
          s.inodes[i].content == Owner(s.inodes[i].creator, i))
  }

  /** What the main lock owes to a process at `pc`. */
  predicate MainOk(s: State, p: Pid, pc: Pc) {
    && (Mine(pc).Some? ==>
          && s.main == Mine(pc) && pc.i < |s.inodes| && s.inodes[pc.i].creator == p
          && (pc.Held? || pc.CheckRelease? ==> s.inodes[pc.i].content == Owner(p, pc.i)))
    && (pc.ReadMain? ==> pc.i < |s.inodes|)
    && (pc.JudgeMain? ==> Read(s, pc.i, pc.c))
    && (pc.MakeBreak? || pc.WriteBreak? || pc.ReopenMain? || pc.RereadMain? || pc.UnlinkStale? ==> Abandoned(s, pc.i))
    && (pc.RereadMain? || pc.UnlinkStale? ==> s.main == Some(pc.i))
  }

  /** `c` was read from inode `i`, which may have been written since. */
  predicate Read(s: State, i: Ino, c: Content) {
    i < |s.inodes| && (c.Owner? ==> c == s.inodes[i].content)
  }

  predicate BreakOk(s: State, p: Pid, pc: Pc) {
    && (MyBreak(pc).Some? ==>
          && p !in s.dead && s.brk == MyBreak(pc) && pc.b < |s.inodes| && s.inodes[pc.b].creator == p
          && (!pc.WriteBreak? && !pc.UnlinkBreak? ==> s.inodes[pc.b].content == Owner(p, pc.b)))
    && (pc.ReadBreak? ==> pc.i < |s.inodes|)
    && (pc.JudgeBreak? ==> Read(s, pc.i, pc.c))
    && (pc.StatBreak? ==> BreakAbandoned(s, pc.i))
    && !pc.UnlinkDeadBreak?
  }

  ghost predicate Inv(s: State) {
    && Bounded(s)
    && (forall p :: s.Live(p) ==> MainOk(s, p, s.pc[p]))
    && (forall p :: p in s.pc ==> BreakOk(s, p, s.pc[p]))
    && (s.brk.Some? ==> !BreakAbandoned(s, s.brk.value))
  }

  // ----- every step keeps it

  /** All that a step of `p` can do to the files. */
  ghost predicate FileEffect(s: State, p: Pid, s': State) {
    && |s.inodes| <= |s'.inodes|
    && (forall i :: 0 <= i < |s.inodes| ==>
          || s'.inodes[i] == s.inodes[i]
          || (s.inodes[i].creator == p && s'.inodes[i] == Inode(p, Owner(p, i))))
    && (forall i :: |s.inodes| <= i < |s'.inodes| ==> s'.inodes[i] == Inode(p, Torn))
    && (s'.main == s.main || s'.main == Some(|s.inodes|) || (s'.main.None? && s.Live(p) && (s.pc[p].UnlinkMine? || s.pc[p].UnlinkStale?)))
    && (s'.main != s.main && s'.main.Some? ==> s.main.None?)
    && (s'.brk == s.brk || s'.brk == Some(|s.inodes|) || (s'.brk.None? && s.Live(p) && s.pc[p].UnlinkBreak?))
    && (s'.brk != s.brk && s'.brk.Some? ==> s.brk.None?)
  }

  /** All that a step of `p` can do to the processes. */
  ghost predicate ProcEffect(s: State, p: Pid, s': State) {
    && p in s'.pc && s'.pc == s.pc[p := s'.pc[p]]
    && (s'.dead == s.dead || s'.dead == s.dead + {p})
    && Carried(if p in s.pc then Mine(s.pc[p]) else None, Mine(s'.pc[p]), |s.inodes|)
    && Carried(if p in s.pc then MyBreak(s.pc[p]) else None, MyBreak(s'.pc[p]), |s.inodes|)
  }

  ghost predicate Effect(s: State, p: Pid, s': State) {
    FileEffect(s, p, s') && ProcEffect(s, p, s')
  }

  /** What a process holds after a step it held before, or created in that step. */
  predicate Carried(before: Option<Ino>, after: Option<Ino>, next: Ino) {
    after == None || after == before || after == Some(next)
  }

  lemma AcquireFileEffect(s: State, p: Pid, s': State)
    requires Inv(s) && s.Live(p) && AcquireStep(s, p, s')
    ensures FileEffect(s, p, s')
  {
    assert MainOk(s, p, s.pc[p]);
    hide BreakOk, Abandoned, BreakAbandoned, Read;
  }

  lemma BreakFileEffect(s: State, p: Pid, s': State)
    requires Inv(s) && s.Live(p) && (BreakStep(s, p, s') || ClearStep(s, p, s'))
    ensures FileEffect(s, p, s')
  {
    assert BreakOk(s, p, s.pc[p]);
    hide MainOk, Abandoned, BreakAbandoned, Read;
  }

  /** Whatever happens, happens to files in these ways only. */
  lemma HappensFileEffect(s: State, p: Pid, s': State)
    requires Inv(s) && Happens(s, p, s')
    ensures FileEffect(s, p, s')
  {
    hide Inv;
    if Step(s, p, s') {
      if AcquireStep(s, p, s') {
        AcquireFileEffect(s, p, s');
      } else if BreakStep(s, p, s') || ClearStep(s, p, s') {
        BreakFileEffect(s, p, s');
      }
    }
  }

  lemma AcquireProcEffect(s: State, p: Pid, s': State)
    requires Inv(s) && s.Live(p) && AcquireStep(s, p, s')
    ensures ProcEffect(s, p, s')
  {
  }

  lemma BreakProcEffect(s: State, p: Pid, s': State)
    requires Inv(s) && s.Live(p) && BreakStep(s, p, s')
    ensures ProcEffect(s, p, s')
  {
  }

  lemma ErrorProcEffect(s: State, p: Pid, s': State)
    requires s.Live(p) && ErrorStep(s, p, s')
    ensures ProcEffect(s, p, s')
  {
  }

  lemma HappensProcEffect(s: State, p: Pid, s': State)
    requires Inv(s) && Happens(s, p, s')
    ensures ProcEffect(s, p, s')
  {
    if Step(s, p, s') {
      hide Inv;
      if AcquireStep(s, p, s') {
        AcquireProcEffect(s, p, s');
      } else if BreakStep(s, p, s') {
        BreakProcEffect(s, p, s');
      } else if ErrorStep(s, p, s') {
        ErrorProcEffect(s, p, s');
      }
    }
  }

  /** An abandoned lock file stays abandoned: inode numbers are never reused. */
  lemma AbandonedStays(s: State, p: Pid, s': State, i: Ino)
    requires Inv(s) && Effect(s, p, s')
    ensures Abandoned(s, i) ==> Abandoned(s', i)
    ensures BreakAbandoned(s, i) ==> BreakAbandoned(s', i)
  {
  }

  /** The main lock stays while its owner is not unlinking it, and, once judged abandoned, while
      its judge holds `.break`. */
  lemma MainStays(s: State, p: Pid, s': State, q: Pid, i: Ino)
    requires Inv(s) && Effect(s, p, s') && q != p && s.Live(q) && s.main == Some(i)
    requires Mine(s.pc[q]) == Some(i) || (MyBreak(s.pc[q]).Some? && Abandoned(s, i))
    ensures s'.main == Some(i)
  {
    assert MainOk(s, q, s.pc[q]) && BreakOk(s, q, s.pc[q]);
    if s.Live(p) {
      assert MainOk(s, p, s.pc[p]) && BreakOk(s, p, s.pc[p]);
    }
  }

  lemma OthersKeepMain(s: State, p: Pid, s': State, q: Pid)
    requires Inv(s) && Effect(s, p, s') && q != p && s'.Live(q)
    ensures MainOk(s', q, s'.pc[q])
  {
    var pc := s.pc[q];
    assert MainOk(s, q, pc) && BreakOk(s, q, pc);
    if pc.MakeBreak? || pc.WriteBreak? || pc.ReopenMain? || pc.RereadMain? || pc.UnlinkStale? {
      AbandonedStays(s, p, s', pc.i);
    }
    if Mine(pc).Some? || pc.RereadMain? || pc.UnlinkStale? {
      MainStays(s, p, s', q, pc.i);
    }
  }

  lemma OthersKeepBreak(s: State, p: Pid, s': State, q: Pid)
    requires Inv(s) && Effect(s, p, s') && q != p && q in s'.pc
    ensures BreakOk(s', q, s'.pc[q])
  {
    var pc := s.pc[q];
    assert BreakOk(s, q, pc);
    if p in s.pc {
      assert BreakOk(s, p, s.pc[p]);
    }
    if pc.StatBreak? {
      AbandonedStays(s, p, s', pc.i);
    }
  }

  lemma AcquirerKeeps(s: State, p: Pid, s': State)
    requires Inv(s) && s.Live(p) && AcquireStep(s, p, s')
    ensures MainOk(s', p, s'.pc[p]) && BreakOk(s', p, s'.pc[p])
  {
    assert MainOk(s, p, s.pc[p]);
    AcquirerHasNoBreak(s, p, s');
    hide Inv, Abandoned, BreakAbandoned, Read, BreakOk;
  }

  lemma AcquirerHasNoBreak(s: State, p: Pid, s': State)
    requires s.Live(p) && AcquireStep(s, p, s')
    ensures BreakOk(s', p, s'.pc[p])
  {
    hide Abandoned, BreakAbandoned, Read, Reads;
  }

  lemma JudgeKeeps(s: State, p: Pid, s': State)
    requires Inv(s) && s.Live(p) && JudgeStep(s, p, s')
    ensures MainOk(s', p, s'.pc[p]) && BreakOk(s', p, s'.pc[p])
  {
    assert MainOk(s, p, s.pc[p]);
  }

  lemma BreakerKeeps(s: State, p: Pid, s': State)
    requires Inv(s) && s.Live(p) && BreakStep(s, p, s')
    ensures MainOk(s', p, s'.pc[p]) && BreakOk(s', p, s'.pc[p])
  {
    assert MainOk(s, p, s.pc[p]) && BreakOk(s, p, s.pc[p]);
  }

  lemma ClearerKeeps(s: State, p: Pid, s': State)
    requires Inv(s) && s.Live(p) && ClearStep(s, p, s')
    ensures MainOk(s', p, s'.pc[p]) && BreakOk(s', p, s'.pc[p])
  {
    assert BreakOk(s, p, s.pc[p]);
  }

  /** Where a process goes when a call fails: nothing but its own files is asked of it there. */
  lemma ErrorKeeps(s: State, p: Pid, s': State)
    requires Inv(s) && s.Live(p) && ErrorStep(s, p, s')
    ensures MainOk(s', p, s'.pc[p]) && BreakOk(s', p, s'.pc[p])
  {
    assert MainOk(s, p, s.pc[p]) && BreakOk(s, p, s.pc[p]);
    hide Inv;
    if MyBreak(s.pc[p]).Some? {
      ErrorKeepsBreak(s, p, s');
    } else {
      IdleOk(s', p);
      hide Abandoned, BreakAbandoned, Read, BreakOk;
      assert s'.pc[p].UnlinkMine? ==> BreakOk(s', p, s'.pc[p]) by { NoBreakOk(s', p, s'.pc[p]); }
      assert s'.pc[p].Trying? ==> BreakOk(s', p, s'.pc[p]) by { NoBreakOk(s', p, s'.pc[p]); }
    }
  }

  lemma NoBreakOk(s: State, p: Pid, pc: Pc)
    ensures pc.UnlinkMine? || pc.Trying? ==> BreakOk(s, p, pc)
  {
  }

  lemma ErrorKeepsBreak(s: State, p: Pid, s': State)
    requires s.Live(p) && ErrorStep(s, p, s') && MyBreak(s.pc[p]).Some? && BreakOk(s, p, s.pc[p])
    ensures MainOk(s', p, s'.pc[p]) && BreakOk(s', p, s'.pc[p])
  {
    hide Abandoned, BreakAbandoned, Read;
  }

  /** A step leaves the process that takes it in order. */
  lemma StepperKeeps(s: State, p: Pid, s': State)
    requires Inv(s) && Step(s, p, s') && p in s'.pc
    ensures MainOk(s', p, s'.pc[p]) && BreakOk(s', p, s'.pc[p])
  {
    hide Inv, MainOk, BreakOk;
    if AcquireStep(s, p, s') { AcquirerKeeps(s, p, s'); }
    else if JudgeStep(s, p, s') { JudgeKeeps(s, p, s'); }
    else if BreakStep(s, p, s') { BreakerKeeps(s, p, s'); }
    else if ClearStep(s, p, s') { ClearerKeeps(s, p, s'); }
    else { ErrorKeeps(s, p, s'); }
  }

  /** `.break` belongs to a live process that is going to unlink it, unless that process abandons it. */
  lemma BreakStaysOwned(s: State, p: Pid, s': State)
    requires Inv(s) && Happens(s, p, s') && Effect(s, p, s')
    requires !s'.Live(p) || BreakOk(s', p, s'.pc[p])
    ensures s'.brk.Some? ==> s'.brk.value < |s'.inodes|
    ensures s'.brk.Some? && BreakAbandoned(s', s'.brk.value) <==> Abandons(s, p, s')
  {
    if s'.brk.Some? && s'.brk == s.brk {
      var q := s.inodes[s.brk.value].creator;
      assert BreakOk(s, q, s.pc[q]);
    }
    if Abandons(s, p, s') {
      assert BreakOk(s, p, s.pc[p]);
    } else if s'.brk.Some? && s'.brk != s.brk {
      BreakIsCreated(s, p, s');
    }
  }

  lemma BreakIsCreated(s: State, p: Pid, s': State)
    requires Inv(s) && Happens(s, p, s') && s'.brk.Some? && s'.brk != s.brk
    ensures s'.Live(p) && MyBreak(s'.pc[p]) == s'.brk && s'.brk == Some(|s.inodes|) && s'.inodes == s.inodes + [Inode(p, Torn)]
  {
    hide Inv, MainOk, BreakOk;
  }

  lemma OthersKeep(s: State, p: Pid, s': State)
    requires Inv(s) && Effect(s, p, s')
    ensures forall q :: q != p && s'.Live(q) ==> MainOk(s', q, s'.pc[q])
    ensures forall q :: q != p && q in s'.pc ==> BreakOk(s', q, s'.pc[q])
  {
    forall q | q != p && q in s'.pc
      ensures s'.Live(q) ==> MainOk(s', q, s'.pc[q])
      ensures BreakOk(s', q, s'.pc[q])
    {
      OthersKeepBreak(s, p, s', q);
      if s'.Live(q) { OthersKeepMain(s, p, s', q); }
    }
  }

  lemma FilesStayBounded(s: State, p: Pid, s': State)
    requires Inv(s) && Happens(s, p, s')
    ensures Bounded(s')
  {
    HappensFileEffect(s, p, s');
    hide MainOk, BreakOk, Happens, BreakAbandoned;
  }

  /** A process that dies without a `.break` of its own, and one that starts. */
  lemma DeathAndBirthKeep(s: State, p: Pid, s': State)
    requires Inv(s) && (Die(s, p, s') || Spawn(s, p, s')) && !Abandons(s, p, s')
    ensures (s'.Live(p) ==> MainOk(s', p, s'.pc[p])) && BreakOk(s', p, s'.pc[p])
  {
    assert Die(s, p, s') ==> BreakOk(s, p, s.pc[p]);
    hide Abandoned, MainOk, Read;
    if Spawn(s, p, s') {
      assert MainOk(s', p, Idle) by { IdleOk(s', p); }
    } else {
      DeadAbandoned(s, p, s');
    }
  }

  lemma IdleOk(s: State, p: Pid)
    ensures MainOk(s, p, Idle) && BreakOk(s, p, Idle)
  {
  }

  lemma DeadAbandoned(s: State, p: Pid, s': State)
    requires Die(s, p, s')
    ensures forall i :: BreakAbandoned(s, i) ==> BreakAbandoned(s', i)
    ensures forall i, c :: Read(s', i, c) == Read(s, i, c)
  {
  }

  /** Whatever happens keeps the invariant, exactly unless a process abandons its `.break`. */
  lemma HappensKeepsInvIff(s: State, p: Pid, s': State)
    requires Inv(s) && Happens(s, p, s')
    ensures Inv(s') <==> !Abandons(s, p, s')
  {
    HappensFileEffect(s, p, s');
    HappensProcEffect(s, p, s');
    FilesStayBounded(s, p, s');
    OthersKeep(s, p, s');
    if Step(s, p, s') { StepperKeeps(s, p, s'); }
    else if !Abandons(s, p, s') { DeathAndBirthKeep(s, p, s'); }
    hide MainOk, BreakOk, Bounded, FileEffect, BreakAbandoned, Step;
    DeadOrOk(s, p, s');
    BreakStaysOwned(s, p, s');
  }

  lemma DeadOrOk(s: State, p: Pid, s': State)
    requires Happens(s, p, s') && (Step(s, p, s') ==> BreakOk(s', p, s'.pc[p]))
    ensures p in s'.pc && (!s'.Live(p) || BreakOk(s', p, s'.pc[p]))
  {
    IdleOk(s', p);
    hide BreakOk;
  }

  /** `.break` is abandoned by a death, by a failed write that is not taken back, and by a failed
      release, and by nothing else. */
  lemma AbandonedBy(s: State, p: Pid, s': State)
    requires Inv(s) && Happens(s, p, s')
    ensures Abandons(s, p, s') <==>
      && s.Live(p) && MyBreak(s.pc[p]).Some?
      && (Die(s, p, s') || ((s.pc[p].WriteBreak? || s.pc[p].CheckBreak? || s.pc[p].UnlinkBreak?) && Back(s, p, s')))
  {
    if p in s.pc { assert BreakOk(s, p, s.pc[p]); }
    hide Inv, MainOk, BreakAbandoned, Abandoned, MayJudgeStale, MayJudgeFresh, JudgeStep, AcquireStep, ClearStep;
  }

  lemma StepKeepsInv(s: State, p: Pid, s': State)
    requires Inv(s) && Next(s, p, s')
    ensures Inv(s')
  {
    HappensKeepsInvIff(s, p, s');
    hide Inv, Happens;
  }

  // ----- what it is for

  /** `held()`: the file at the lock's path is this holder's own. */
  predicate HeldBy(s: State, p: Pid) {
    s.Live(p) && s.pc[p].Held? && Reads(s, s.main, Owner(p, s.pc[p].i))
  }

  /** A run of any length, from no files and no processes. */
  ghost predicate Run(r: seq<State>) {
    && |r| > 0 && r[0] == Start
    && forall k :: 0 <= k < |r| - 1 ==> Follows(r[k], r[k + 1])
  }

  ghost predicate Follows(s: State, s': State) {
    exists p :: Next(s, p, s')
  }

  lemma {:induction false} RunKeepsInv(r: seq<State>, k: nat)
    requires Run(r) && k < |r|
    ensures Inv(r[k])
  {
    if k > 0 {
      RunKeepsInv(r, k - 1);
      assert Follows(r[k - 1], r[k - 1 + 1]);
      var p :| Next(r[k - 1], p, r[k]);
      StepKeepsInv(r[k - 1], p, r[k]);
    }
  }

  /** At every point of every run at most one live process holds the lock, and for that process
      assertHeld does not throw. */
  lemma MutualExclusion(r: seq<State>, k: nat, p: Pid, q: Pid)
    requires Run(r) && k < |r|
    requires r[k].Live(p) && r[k].pc[p].Held?
    ensures HeldBy(r[k], p)
    ensures r[k].Live(q) && r[k].pc[q].Held? ==> q == p
  {
    RunKeepsInv(r, k);
    assert MainOk(r[k], p, r[k].pc[p]);
    if r[k].Live(q) {
      assert MainOk(r[k], q, r[k].pc[q]);
    }
  }

  /** No other process's step takes a live holder's lock away. */
  lemma HolderUndisturbed(r: seq<State>, k: nat, p: Pid, q: Pid)
    requires Run(r) && k + 1 < |r| && Next(r[k], q, r[k + 1]) && q != p
    requires r[k].Live(p) && r[k].pc[p].Held?
    ensures HeldBy(r[k + 1], p) && r[k + 1].main == r[k].main
  {
    RunKeepsInv(r, k);
    assert MainOk(r[k], p, r[k].pc[p]);
    HappensFileEffect(r[k], q, r[k + 1]);
    HappensProcEffect(r[k], q, r[k + 1]);
    MainStays(r[k], q, r[k + 1], p, r[k].pc[p].i);
  }
}
