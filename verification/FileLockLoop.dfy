/** Taking the lock, as one process does it while no other acts: the calls in program order, the
    retries, and the deadline. `FileLock` has what happens between processes. */
module FileLockLoop {
  import opened Wrappers
  import FileLock

  datatype Path = Main | Break

  datatype LockFile = LockFile(ino: nat, content: FileLock.Content, mtime: nat)

  /** Lock files, the clock in milliseconds, and the pids that are gone. */
  class LockDir {
    var files: map<Path, LockFile>
    var nextIno: nat
    var clock: nat
    const dead: set<FileLock.Pid>
    const staleMs: nat

    constructor (files: map<Path, LockFile>, nextIno: nat, clock: nat, dead: set<FileLock.Pid>, staleMs: nat)
      ensures this.files == files && this.nextIno == nextIno && this.clock == clock
      ensures this.dead == dead && this.staleMs == staleMs
    {
      this.files, this.nextIno, this.clock, this.dead, this.staleMs := files, nextIno, clock, dead, staleMs;
    }

    /** A readable owner decides by its pid, anything else by its age. */
    predicate IsStale(f: LockFile)
      reads this
    {
      match f.content
      case Owner(pid, _) => pid in dead
      case Torn => clock > f.mtime + staleMs
    }

    /** O_EXCL: false if the file is there already. */
    method TryCreate(path: Path, owner: FileLock.Content) returns (created: bool)
      modifies this`files, this`nextIno
      ensures created <==> path !in old(files)
      ensures created ==> files == old(files)[path := LockFile(old(nextIno), owner, clock)] && nextIno == old(nextIno) + 1
      ensures !created ==> files == old(files) && nextIno == old(nextIno)
    {
      if path in files {
        return false;
      }
      files := files[path := LockFile(nextIno, owner, clock)];
      nextIno := nextIno + 1;
      return true;
    }

    method Observe(path: Path) returns (seen: Option<LockFile>)
      ensures seen == if path in files then Some(files[path]) else None
    {
      return if path in files then Some(files[path]) else None;
    }

    method RemoveIfOwned(path: Path, owner: FileLock.Content)
      modifies this`files
      ensures files == if path in old(files) && old(files)[path].content == owner then old(files) - {path} else old(files)
    {
      if path in files && files[path].content == owner {
        files := files - {path};
      }
    }

    /** What an attempt to break the main lock comes to. */
    function Broken(before: map<Path, LockFile>): map<Path, LockFile>
      reads this
    {
      if Main !in before || !IsStale(before[Main]) then before
      else if Break !in before then before - {Main}
      else if IsStale(before[Break]) then before - {Break}
      else before
    }

    /** A stale main lock goes, or the claim of a dead breaker that is in the way; a lock that is
        not stale stays, and no claim of one's own is left behind. */
    method BreakIfStale(breaker: FileLock.Content)
      modifies this`files, this`nextIno
      ensures files == Broken(old(files)) && nextIno >= old(nextIno)
    {
      var seen := Observe(Main);
      if seen.None? || !IsStale(seen.value) {
        return;
      }
      var created := TryCreate(Break, breaker);
      if !created {
        var claim := Observe(Break);
        if claim.Some? && IsStale(claim.value) && Break in files && files[Break].ino == claim.value.ino {
          files := files - {Break};
        }
        return;
      }
      var now := Observe(Main);
      if now.Some? && now.value.ino == seen.value.ino && now.value.content == seen.value.content {
        files := files - {Main};
      }
      RemoveIfOwned(Break, breaker);
      assert files == old(files) - {Main};
    }

    /** Retries with a growing delay until the deadline. Alone, the lock is taken if it is free, or
        stale with time for the retries that breaking it takes: one, or two when the claim of a
        dead breaker must go first. A lock without a readable owner is taken, too, if it gets old
        enough 25 milliseconds before the deadline, and left alone if it does not by 25 after it. */
    method AcquireFileLock(owner: FileLock.Content, breaker: FileLock.Content, waitMs: nat) returns (held: bool)
      modifies this`files, this`nextIno, this`clock
      ensures held ==> Main in files && files[Main].content == owner && files[Main].ino >= old(nextIno)
      ensures !held ==> clock >= old(clock) + waitMs && files.Keys <= old(files.Keys)
      ensures Main !in old(files) ==> held
      ensures Main in old(files) && old(IsStale(files[Main])) && waitMs >= 1 && Break !in old(files) ==> held
      ensures Main in old(files) && old(IsStale(files[Main])) && waitMs >= 2 && Break in old(files) && old(IsStale(files[Break])) ==> held
      ensures Main in old(files) && old(files)[Main].content.Owner? && old(files)[Main].content.pid !in dead ==>
        !held && files == old(files)
      ensures Main in old(files) && old(files)[Main].content.Torn? && old(files)[Main].mtime + staleMs >= old(clock) + waitMs + 25 ==>
        !held && files == old(files)
      ensures Main in old(files) && old(files)[Main].content.Torn? && Break !in old(files) && waitMs >= 1 ==>
        old(files)[Main].mtime + staleMs + 25 < old(clock) + waitMs ==> held
    {
      var deadline := clock + waitMs;
      var delay := 1;
      ghost var tries: nat := 0;
      while true
        invariant 1 <= delay <= 25 && clock >= old(clock) + tries && nextIno >= old(nextIno)
        invariant tries > 0 ==> clock < deadline + 25
        invariant tries == 0 ==> delay == 1
        invariant tries <= 1 ==> clock == old(clock) + tries
        invariant tries > 0 ==> old(clock) + tries - 1 < deadline
        invariant files.Keys <= old(files.Keys)
        invariant Main in files ==> Main in old(files) && files[Main] == old(files)[Main]
        invariant Break in files ==> Break in old(files) && files[Break] == old(files)[Break]
        invariant tries == 0 ==> files == old(files)
        invariant Main in old(files) && old(IsStale(files[Main])) ==>
          && (tries >= 1 && Break !in old(files) ==> Main !in files)
          && (tries == 1 && Break in old(files) && old(IsStale(files[Break])) ==> Break !in files)
          && (tries >= 2 && Break in old(files) && old(IsStale(files[Break])) ==> Main !in files)
        invariant Main in old(files) && old(files)[Main].content.Owner? && old(files)[Main].content.pid !in dead ==> files == old(files)
        invariant Main in old(files) && old(files)[Main].content.Torn? && old(files)[Main].mtime + staleMs >= deadline + 25 ==> files == old(files)
        invariant Main in files && files[Main].content.Torn? && Break !in old(files) ==>
          tries == 0 || files[Main].mtime + staleMs >= clock - 25
        decreases deadline - clock
      {
        var created := TryCreate(Main, owner);
        if created {
          return true;
        }
        BreakIfStale(breaker);
        if clock >= deadline {
          return false;
        }
        clock := clock + delay;
        delay := if delay * 2 < 25 then delay * 2 else 25;
        tries := tries + 1;
      }
    }
  }
}
