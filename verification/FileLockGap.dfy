/** What the lock's assumption on `.break` is for: once a process abandons the `.break` it created,
    by dying or by a failed write, two live processes can come to hold the lock. */
module FileLockGap {
  import opened Wrappers
  import opened FileLock

  /** Steps of live processes, any number of them. */
  ghost predicate Path(r: seq<State>) {
    |r| > 0 && forall i :: 0 <= i < |r| - 1 ==> Goes(r[i], r[i + 1])
  }

  ghost predicate Goes(s: State, t: State) {
    exists p :: Step(s, p, t)
  }

  ghost predicate Reaches(s: State, t: State) {
    exists r :: Path(r) && r[0] == s && r[|r| - 1] == t
  }

  lemma ByStep(s: State, p: Pid, t: State)
    requires Step(s, p, t)
    ensures Reaches(s, t)
  {
    hide Step;
    assert Goes(s, t);
    assert Path([s, t]) && [s, t][0] == s && [s, t][1] == t;
  }

  lemma Then(s: State, t: State, u: State)
    requires Reaches(s, t) && Reaches(t, u)
    ensures Reaches(s, u)
  {
    hide Goes;
    var a :| Path(a) && a[0] == s && a[|a| - 1] == t;
    var b :| Path(b) && b[0] == t && b[|b| - 1] == u;
    var r := a + b[1..];
    forall i | 0 <= i < |r| - 1 ensures Goes(r[i], r[i + 1]) {
      if i < |a| - 1 {
        assert Goes(a[i], a[i + 1]);
      } else {
        assert r[i] == b[i - |a| + 1] && r[i + 1] == b[i - |a| + 2];
        assert Goes(b[i - |a| + 1], b[i - |a| + 1 + 1]);
      }
    }
    assert Path(r);
  }

  lemma OneMore(s: State, t: State, p: Pid, u: State)
    requires Reaches(s, t) && Step(t, p, u)
    ensures Reaches(s, u)
  {
    hide Step, Reaches;
    ByStep(t, p, u);
    Then(s, t, u);
  }

  /** The main lock is what its dead owner left. */
  predicate Stale(s: State, i: Ino) {
    s.main == Some(i) && i < |s.inodes| && s.inodes[i].content.Owner? && s.inodes[i].content.pid in s.dead
  }

  /** A process that goes for a stale lock, with `.break` free, gets as far as unlinking it. */
  function BrokenUp(s: State, p: Pid, i: Ino): State {
    var b := |s.inodes|;
    s.(brk := Some(b), inodes := s.inodes + [Inode(p, Owner(p, b))], pc := s.pc[p := UnlinkStale(b, i)])
  }

  lemma BreaksUp(s: State, p: Pid, i: Ino)
    requires s.Live(p) && s.pc[p].Trying? && Stale(s, i) && s.brk.None?
    ensures Reaches(s, BrokenUp(s, p, i))
  {
    var c, b := s.inodes[i].content, |s.inodes|;
    var s1 := s.To(p, OpenMain);
    var s2 := s.To(p, ReadMain(i));
    var s3 := s.To(p, JudgeMain(i, c));
    var s4 := s.To(p, MakeBreak(i, c));
    hide Reaches, Back, BreakStep, ClearStep;
    assert Step(s, p, s1);
    ByStep(s, p, s1);
    assert s1.To(p, ReadMain(i)) == s2;
    OneMore(s, s1, p, s2);
    assert s2.To(p, JudgeMain(i, c)) == s3;
    OneMore(s, s2, p, s3);
    assert s3.To(p, MakeBreak(i, c)) == s4;
    OneMore(s, s3, p, s4);
    hide Step;
    BreaksOn(s4, p, i, c);
    assert BrokenUp(s4, p, i) == BrokenUp(s, p, i);
    Then(s, s4, BrokenUp(s, p, i));
  }

  lemma BreaksOn(s: State, p: Pid, i: Ino, c: Content)
    requires s.Live(p) && s.pc[p] == MakeBreak(i, c) && Stale(s, i) && c == s.inodes[i].content && s.brk.None?
    ensures Reaches(s, BrokenUp(s, p, i))
  {
    var b := |s.inodes|;
    var done := s.(brk := Some(b), inodes := s.inodes + [Inode(p, Owner(p, b))]);
    hide Reaches;
    MakesBreak(s, p, i, c);
    hide Step;
    LooksAgain(done.To(p, ReopenMain(b, i, c)), p, b, i, c);
    assert done.To(p, ReopenMain(b, i, c)).To(p, UnlinkStale(b, i)) == BrokenUp(s, p, i);
    Then(s, done.To(p, ReopenMain(b, i, c)), BrokenUp(s, p, i));
  }

  lemma MakesBreak(s: State, p: Pid, i: Ino, c: Content)
    requires s.Live(p) && s.pc[p] == MakeBreak(i, c) && s.brk.None?
    ensures var b := |s.inodes|;
      Reaches(s, s.(brk := Some(b), inodes := s.inodes + [Inode(p, Owner(p, b))]).To(p, ReopenMain(b, i, c)))
  {
    var b := |s.inodes|;
    var torn := s.(brk := Some(b), inodes := s.inodes + [Inode(p, Torn)]);
    var s1 := torn.To(p, WriteBreak(b, i, c));
    var s2 := s.(brk := Some(b), inodes := s.inodes + [Inode(p, Owner(p, b))]).To(p, ReopenMain(b, i, c));
    hide Reaches, Back, AcquireStep, JudgeStep, ClearStep;
    ByStep(s, p, s1);
    assert s1.inodes[b := s1.inodes[b].(content := Owner(p, b))] == s2.inodes;
    assert s1.Write(b, Owner(p, b)).To(p, ReopenMain(b, i, c)) == s2;
    OneMore(s, s1, p, s2);
  }

  lemma LooksAgain(s: State, p: Pid, b: Ino, i: Ino, c: Content)
    requires s.Live(p) && s.pc[p] == ReopenMain(b, i, c) && s.main == Some(i) && i < |s.inodes| && s.inodes[i].content == c
    ensures Reaches(s, s.To(p, UnlinkStale(b, i)))
  {
    var s1, s2 := s.To(p, RereadMain(b, i, c)), s.To(p, UnlinkStale(b, i));
    hide Reaches, Back, AcquireStep, JudgeStep, ClearStep;
    ByStep(s, p, s1);
    assert s1.To(p, UnlinkStale(b, i)) == s2;
    OneMore(s, s1, p, s2);
  }

  function Taken(s: State, p: Pid): State {
    var i := |s.inodes|;
    s.(main := Some(i), inodes := s.inodes + [Inode(p, Owner(p, i))], pc := s.pc[p := Held(i)])
  }

  /** A process that goes for a free lock gets it. */
  lemma Takes(s: State, p: Pid)
    requires s.Live(p) && s.pc[p].Trying? && s.main.None?
    ensures Reaches(s, Taken(s, p))
  {
    var i := |s.inodes|;
    var s1 := s.(main := Some(i), inodes := s.inodes + [Inode(p, Torn)]).To(p, Writing(i));
    hide Reaches;
    ByStep(s, p, s1);
    assert s1.inodes[i := s1.inodes[i].(content := Owner(p, i))] == Taken(s, p).inodes;
    assert s1.Write(i, Owner(p, i)).To(p, Held(i)) == Taken(s, p);
    OneMore(s, s1, p, Taken(s, p));
  }

  /** Process 0 left the main lock, process 1 its `.break`, and 2 and 3, having read that, are
      about to judge it, and may call it stale. */
  predicate BreakLeft(s: State, c: Content) {
    && Stale(s, 0) && s.brk == Some(1) && |s.inodes| == 2 && s.Live(2) && s.Live(3)
    && s.pc[2] == s.pc[3] == JudgeBreak(1, c) && c == s.inodes[1].content
    && s.inodes[1].creator == 1 && BreakAbandoned(s, 1) && (c.Owner? ==> c.pid in s.dead)
  }

  /** Both judge it stale and see that it is still there; 2 unlinks it. */
  lemma BothClear(s: State, c: Content)
    requires BreakLeft(s, c)
    ensures Reaches(s, s.(brk := None).To(2, Trying).To(3, UnlinkDeadBreak(1)))
  {
    var s1 := s.To(2, StatBreak(1));
    var s2 := s1.To(2, UnlinkDeadBreak(1));
    var s3 := s2.To(3, StatBreak(1));
    var s4 := s3.To(3, UnlinkDeadBreak(1));
    var s5 := s4.(brk := None).To(2, Trying);
    assert BreakAbandoned(s2, 1);
    hide Reaches, BreakAbandoned, Abandoned, AcquireStep, JudgeStep, BreakStep, ErrorStep;
    ByStep(s, 2, s1);
    OneMore(s, s1, 2, s2);
    OneMore(s, s2, 3, s3);
    OneMore(s, s3, 3, s4);
    OneMore(s, s4, 2, s5);
    assert s5.pc == s.pc[2 := Trying][3 := UnlinkDeadBreak(1)];
  }

  /** Two live processes hold the lock. */
  predicate TwoHolders(s: State) {
    s.Live(2) && s.Live(3) && s.pc[2].Held? && s.pc[3].Held?
  }

  /** Both are about to unlink the stale main lock, each under a `.break` it made; 3's is there. */
  predicate BothBreaking(s: State) {
    && s.Live(2) && s.Live(3) && s.brk == Some(3) && |s.inodes| == 4 && s.inodes[3].content == Owner(3, 3)
    && s.pc[2] == UnlinkStale(2, 0) && s.pc[3] == UnlinkStale(3, 0)
  }

  /** 2 breaks the stale lock, 3 unlinks the `.break` it does so under, and breaks it too. */
  lemma BothBreak(s: State)
    requires s.Live(2) && s.Live(3) && Stale(s, 0) && |s.inodes| == 2 && s.brk.None?
    requires s.pc[2].Trying? && s.pc[3] == UnlinkDeadBreak(1)
    ensures exists t :: Reaches(s, t) && BothBreaking(t)
  {
    var s1 := BrokenUp(s, 2, 0);
    var s2 := s1.(brk := None).To(3, Trying);
    var s3 := BrokenUp(s2, 3, 0);
    hide Reaches, BreakAbandoned, Abandoned, MayJudgeStale, MayJudgeFresh;
    BreaksUp(s, 2, 0);
    OneMore(s, s1, 3, s2);
    BreaksUp(s2, 3, 0);
    Then(s, s2, s3);
    assert BothBreaking(s3);
  }

  /** 2 holds the lock, and 3 is still about to unlink what was there before. */
  predicate OneHolds(s: State) {
    && s.Live(2) && s.Live(3) && s.pc[2].Held? && s.pc[3] == UnlinkStale(3, 0)
    && s.brk == Some(3) && |s.inodes| == 5 && s.inodes[3].content == Owner(3, 3)
  }

  /** 2 unlinks the stale lock and takes a new one. */
  lemma SecondTakes(s: State)
    requires BothBreaking(s)
    ensures exists t :: Reaches(s, t) && OneHolds(t)
  {
    var s1 := s.(main := None).To(2, CheckBreak(2));
    var s2 := s1.To(2, Trying);
    var s3 := Taken(s2, 2);
    hide Reaches;
    ByStep(s, 2, s1);
    OneMore(s, s1, 2, s2);
    Takes(s2, 2);
    Then(s, s2, s3);
    assert OneHolds(s3);
  }

  /** 3 still unlinks what it judged stale, which is 2's lock by now, and takes it as well. */
  lemma ThirdTakes(s: State)
    requires OneHolds(s)
    ensures exists t :: Reaches(s, t) && TwoHolders(t)
  {
    var s1 := s.(main := None).To(3, CheckBreak(3));
    var s2 := s1.To(3, UnlinkBreak(3));
    var s3 := s2.(brk := None).To(3, Trying);
    var s4 := Taken(s3, 3);
    hide Reaches;
    ByStep(s, 3, s1);
    OneMore(s, s1, 3, s2);
    OneMore(s, s2, 3, s3);
    Takes(s3, 3);
    Then(s, s3, s4);
    assert TwoHolders(s4);
  }

  /** Once `.break` is abandoned, two live processes can come to hold the lock: clearing it is
      check-then-unlink. */
  lemma AbandonedBreakLosesExclusion(s: State, c: Content)
    requires BreakLeft(s, c)
    ensures exists t :: Reaches(s, t) && TwoHolders(t)
  {
    BothClear(s, c);
    var t := s.(brk := None).To(2, Trying).To(3, UnlinkDeadBreak(1));
    hide Reaches, TwoHolders, BothBreaking, OneHolds;
    BothBreak(t);
    var u :| Reaches(t, u) && BothBreaking(u);
    SecondTakes(u);
    var v :| Reaches(u, v) && OneHolds(v);
    ThirdTakes(v);
    var w :| Reaches(v, w) && TwoHolders(w);
    Then(s, t, u);
    Then(s, u, v);
    Then(s, v, w);
  }

  /** Breaker 1 at `pc`, its `.break` holding `c`; 2 and 3 have just read that. */
  function Before(pc: Pc, c: Content): State {
    State(Some(0), Some(1), [Inode(0, Owner(0, 0)), Inode(1, c)],
      map[0 := Held(0), 1 := pc, 2 := JudgeBreak(1, c), 3 := JudgeBreak(1, c)],
      {0})
  }

  // ----- a run that gets there

  /** A run from no files and no processes ends here. */
  ghost predicate Reached(s: State) {
    exists r :: Run(r) && r[|r| - 1] == s
  }

  lemma Goes1(s: State, p: Pid, t: State)
    requires Reached(s) && Next(s, p, t)
    ensures Reached(t)
  {
    hide Next;
    var r :| Run(r) && r[|r| - 1] == s;
    var r' := r + [t];
    assert FileLock.Follows(s, t);
    forall k | 0 <= k < |r'| - 1 ensures FileLock.Follows(r'[k], r'[k + 1]) {
      if k < |r| - 1 { assert FileLock.Follows(r[k], r[k + 1]); }
    }
    assert Run(r');
  }

  lemma Begun()
    ensures Reached(Start)
  {
    assert Run([Start]) && [Start][|[Start]| - 1] == Start;
  }

  /** One process without a `.break` of its own moves on. */
  predicate MayMove(s: State, p: Pid, a: Pc, b: Pc) {
    var t := s.To(p, a);
    && p !in s.dead && MyBreak(a).None?
    && (AcquireStep(t, p, s.To(p, b)) || JudgeStep(t, p, s.To(p, b)) || BreakStep(t, p, s.To(p, b)) || ClearStep(t, p, s.To(p, b)))
  }

  lemma MovesOn(s: State, p: Pid, a: Pc, b: Pc)
    requires Reached(s.To(p, a)) && MayMove(s, p, a, b)
    ensures Reached(s.To(p, b))
  {
    hide Reached, AcquireStep, JudgeStep, BreakStep, ClearStep, ErrorStep;
    Goes1(s.To(p, a), p, s.To(p, b));
  }

  lemma Overwritten(s: State, p: Pid)
    ensures forall a, b :: s.To(p, a).To(p, b) == s.To(p, b)
  {
    forall a, b ensures s.To(p, a).To(p, b) == s.To(p, b) {
      assert s.pc[p := a][p := b] == s.pc[p := b];
    }
  }

  lemma MayTry(s: State, p: Pid)
    requires p !in s.dead && s.main.Some?
    ensures MayMove(s, p, Idle, Trying) && MayMove(s, p, Trying, OpenMain)
  {
    hide JudgeStep, BreakStep, ClearStep;
    Overwritten(s, p);
  }

  lemma MayJudge(s: State, p: Pid)
    requires p !in s.dead && Stale(s, 0)
    ensures var c := s.inodes[0].content;
      MayMove(s, p, OpenMain, ReadMain(0)) && MayMove(s, p, ReadMain(0), JudgeMain(0, c)) && MayMove(s, p, JudgeMain(0, c), MakeBreak(0, c))
  {
    hide AcquireStep, BreakStep, ClearStep, Abandoned, Back;
    Overwritten(s, p);
  }

  lemma MayReadBreak(s: State, p: Pid)
    requires p !in s.dead && Stale(s, 0) && s.brk == Some(1) && |s.inodes| > 1
    ensures var c := s.inodes[0].content;
      && MayMove(s, p, MakeBreak(0, c), OpenBreak) && MayMove(s, p, OpenBreak, ReadBreak(1))
      && MayMove(s, p, ReadBreak(1), JudgeBreak(1, s.inodes[1].content))
  {
    hide AcquireStep, JudgeStep, BreakAbandoned, Back;
    Overwritten(s, p);
  }

  lemma Spawns(s: State, p: Pid)
    requires Reached(s) && p !in s.pc && p !in s.dead
    ensures Reached(s.To(p, Idle))
  {
    hide Reached;
    Goes1(s, p, s.To(p, Idle));
  }

  /** A new process gets as far as having judged the stale lock. */
  lemma Judges(s: State, p: Pid)
    requires Reached(s) && p !in s.pc && p !in s.dead && Stale(s, 0)
    ensures Reached(s.To(p, MakeBreak(0, s.inodes[0].content)))
  {
    var c := s.inodes[0].content;
    MayTry(s, p);
    MayJudge(s, p);
    hide Reached, MayMove, Stale;
    Spawns(s, p);
    MovesOn(s, p, Idle, Trying);
    MovesOn(s, p, Trying, OpenMain);
    MovesOn(s, p, OpenMain, ReadMain(0));
    MovesOn(s, p, ReadMain(0), JudgeMain(0, c));
    MovesOn(s, p, JudgeMain(0, c), MakeBreak(0, c));
  }

  /** And with `.break` taken, as having read that. */
  lemma ReadsBreak(s: State, p: Pid)
    requires Reached(s) && p !in s.pc && p !in s.dead && Stale(s, 0) && s.brk == Some(1) && |s.inodes| > 1
    ensures Reached(s.To(p, JudgeBreak(1, s.inodes[1].content)))
  {
    var c := s.inodes[0].content;
    MayReadBreak(s, p);
    hide Reached, MayMove;
    Judges(s, p);
    MovesOn(s, p, MakeBreak(0, c), OpenBreak);
    MovesOn(s, p, OpenBreak, ReadBreak(1));
    MovesOn(s, p, ReadBreak(1), JudgeBreak(1, s.inodes[1].content));
  }

  /** Process 0 took the lock and died. */
  function Orphaned(): State {
    State(Some(0), None, [Inode(0, Owner(0, 0))], map[0 := Held(0)], {0})
  }

  lemma FirstCreates()
    ensures Reached(Start.To(0, Idle).To(0, Trying).(main := Some(0), inodes := [Inode(0, Torn)]).To(0, Writing(0)))
  {
    var s1 := Start.To(0, Idle);
    var s2 := s1.To(0, Trying);
    var s3 := s2.(main := Some(0), inodes := [Inode(0, Torn)]).To(0, Writing(0));
    hide Reached, JudgeStep, BreakStep, ClearStep, ErrorStep;
    Begun();
    Goes1(Start, 0, s1);
    Goes1(s1, 0, s2);
    assert s2.inodes + [Inode(0, Torn)] == [Inode(0, Torn)];
    Goes1(s2, 0, s3);
  }

  lemma OrphanedIsReached()
    ensures Reached(Orphaned())
  {
    var s3 := Start.To(0, Idle).To(0, Trying).(main := Some(0), inodes := [Inode(0, Torn)]).To(0, Writing(0));
    var s4 := s3.Write(0, Owner(0, 0)).To(0, Held(0));
    hide Reached, JudgeStep, BreakStep, ClearStep, ErrorStep;
    FirstCreates();
    Goes1(s3, 0, s4);
    assert s4.inodes == [Inode(0, Owner(0, 0))] && s4.pc == map[0 := Held(0)];
    hide AcquireStep;
    Goes1(s4, 0, Orphaned());
  }

  /** Process 1 made `.break`, and has not written it yet. */
  function Claimed(): State {
    State(Some(0), Some(1), [Inode(0, Owner(0, 0)), Inode(1, Torn)], map[0 := Held(0), 1 := WriteBreak(1, 0, Owner(0, 0))], {0})
  }

  lemma ClaimedIsReached()
    ensures Reached(Claimed())
  {
    var s := Orphaned();
    var c := Owner(0, 0);
    hide Reached;
    OrphanedIsReached();
    Judges(s, 1);
    Claims(s.To(1, MakeBreak(0, c)));
  }

  lemma Claims(s: State)
    requires Reached(s) && s == Orphaned().To(1, MakeBreak(0, Owner(0, 0)))
    ensures Reached(Claimed())
  {
    hide Reached, AcquireStep, JudgeStep, ClearStep, ErrorStep;
    var t := s.(brk := Some(1), inodes := s.inodes + [Inode(1, Torn)]).To(1, WriteBreak(1, 0, Owner(0, 0)));
    Goes1(s, 1, t);
    assert t.inodes == Claimed().inodes && t.pc == Claimed().pc;
  }

  lemma TwoRead(s: State)
    requires Reached(s) && Stale(s, 0) && s.brk == Some(1) && |s.inodes| > 1 && s.dead == {0} && s.pc.Keys == {0, 1}
    ensures Reached(s.To(2, JudgeBreak(1, s.inodes[1].content)).To(3, JudgeBreak(1, s.inodes[1].content)))
  {
    hide Reached;
    ReadsBreak(s, 2);
    ReadsBreak(s.To(2, JudgeBreak(1, s.inodes[1].content)), 3);
  }

  lemma BeforeWriteIsReached()
    ensures Reached(Before(WriteBreak(1, 0, Owner(0, 0)), Torn))
  {
    hide Reached, Stale;
    ClaimedIsReached();
    assert Stale(Claimed(), 0) by { StaleClaimed(); }
    TwoRead(Claimed());
    assert Claimed().To(2, JudgeBreak(1, Torn)).To(3, JudgeBreak(1, Torn)) == Before(WriteBreak(1, 0, Owner(0, 0)), Torn);
  }

  lemma StaleClaimed()
    ensures Stale(Claimed(), 0)
  {
  }

  lemma BeforeReopenIsReached()
    ensures Reached(Before(ReopenMain(1, 0, Owner(0, 0)), Owner(1, 1)))
  {
    var c := Owner(0, 0);
    var s := Claimed();
    var t := s.Write(1, Owner(1, 1)).To(1, ReopenMain(1, 0, c));
    ClaimedIsReached();
    assert Next(s, 1, t) by { hide Reached, AcquireStep, JudgeStep, ClearStep, ErrorStep; assert BreakStep(s, 1, t); }
    hide Reached, Next;
    Goes1(s, 1, t);
    TwoRead(t);
    assert t.inodes == [Inode(0, c), Inode(1, Owner(1, 1))];
    assert t.To(2, JudgeBreak(1, Owner(1, 1))).To(3, JudgeBreak(1, Owner(1, 1))) == Before(ReopenMain(1, 0, c), Owner(1, 1));
  }

  /** A run, the death of a process that holds `.break`, and from there on steps of live processes to
      two holders. */
  lemma DeadBreakerLosesExclusion()
    ensures var s := Before(ReopenMain(1, 0, Owner(0, 0)), Owner(1, 1));
      var s' := s.(dead := s.dead + {1});
      && Reached(s) && Die(s, 1, s') && Abandons(s, 1, s')
      && exists t :: Reaches(s', t) && TwoHolders(t)
  {
    BeforeReopenIsReached();
    var s := Before(ReopenMain(1, 0, Owner(0, 0)), Owner(1, 1));
    hide Reached, Reaches, TwoHolders;
    AbandonedBreakLosesExclusion(s.(dead := s.dead + {1}), Owner(1, 1));
  }

  /** The same after a failed write of `.break`, which the audit package leaves behind: nobody but
      the stale lock's owner has died. */
  lemma FailedWriteLosesExclusion()
    ensures var s := Before(WriteBreak(1, 0, Owner(0, 0)), Torn);
      var s' := s.To(1, Idle);
      && Reached(s) && Step(s, 1, s') && Abandons(s, 1, s') && s'.dead == {0}
      && exists t :: Reaches(s', t) && TwoHolders(t)
  {
    BeforeWriteIsReached();
    var s := Before(WriteBreak(1, 0, Owner(0, 0)), Torn);
    hide Reached, Reaches, TwoHolders;
    AbandonedBreakLosesExclusion(s.To(1, Idle), Torn);
  }
}
