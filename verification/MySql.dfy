/** One statement on a pooled MySQL connection: a result read by events, a time limit, a COMMIT only
    for a whole result, and the connection given back clean or closed. */
module MySql {
  import opened Wrappers
  import opened Texts
  import opened Rows

  /** What the driver reports of a running statement; `Lost` is the connection failing, `Timer` this
      app's own time limit. */
  datatype Event = Fields(columns: Option<seq<Text>>) | Result(row: Row) | Error(fatal: bool) | End | Timer | Lost

  datatype Answer = Answer(columns: seq<Text>, rows: seq<Row>, rowCount: nat, truncated: bool, abandoned: bool)

  datatype Settlement = Resolved(answer: Answer) | Rejected(fatal: bool) | TimedOut

  // ----- what a stretch of events amounts to

  /** The columns of the result set being read; None is a status. */
  function Current(es: seq<Event>): Option<seq<Text>> {
    if es == [] then None
    else match es[|es| - 1] case Fields(columns) => columns case _ => Current(es[..|es| - 1])
  }

  /** The columns of the first result set that has any. */
  function FirstColumns(es: seq<Event>): Option<seq<Text>> {
    if es == [] then None
    else
      var before := FirstColumns(es[..|es| - 1]);
      if before.None? && es[|es| - 1].Fields? then es[|es| - 1].columns else before
  }

  /** The rows to come belong to that set. */
  predicate InFirstSet(es: seq<Event>) {
    es != [] &&
    match es[|es| - 1]
    case Fields(columns) => columns.Some? && FirstColumns(es[..|es| - 1]).None?
    case _ => InFirstSet(es[..|es| - 1])
  }

  function FirstSetRows(es: seq<Event>): seq<Row> {
    if es == [] then []
    else
      var before := es[..|es| - 1];
      FirstSetRows(before) + (if es[|es| - 1].Result? && InFirstSet(before) then [es[|es| - 1].row] else [])
  }

  /** What the first status reports as changed. */
  function FirstStatus(affectedRows: Row -> nat, es: seq<Event>): Option<nat> {
    if es == [] then None
    else
      var before := es[..|es| - 1];
      if FirstStatus(affectedRows, before).None? && es[|es| - 1].Result? && Current(before).None? then Some(affectedRows(es[|es| - 1].row))
      else FirstStatus(affectedRows, before)
  }

  datatype Settings = Settings(max: nat, shape: Row -> Row, affectedRows: Row -> nat)

  /** The rows of the first set no longer fit with the last event. */
  predicate Overflows(c: Settings, es: seq<Event>) {
    es != [] && es[|es| - 1].Result? && InFirstSet(es[..|es| - 1])
    && !Fits(c.shape, FirstSetRows(es), c.max, |FirstSetRows(es)|)
  }

  /** The statement's outcome is decided by event `k`. */
  predicate Decides(c: Settings, es: seq<Event>, k: nat) {
    k < |es| && (es[k].Error? || es[k].End? || es[k].Timer? || es[k].Lost? || Overflows(c, es[..k + 1]))
  }

  predicate Undecided(c: Settings, es: seq<Event>, n: nat) {
    forall k :: 0 <= k < n ==> !Decides(c, es, k)
  }

  /** What the caller is told: of a whole result everything, of an overflowing one what fits. */
  ghost predicate Tells(c: Settings, es: seq<Event>, k: nat, s: Settlement)
    requires k < |es|
  {
    match es[k]
    case Timer => s == TimedOut
    case Error(fatal) => s == Rejected(fatal)
    case Lost => s == Rejected(true)
    case _ =>
      && s.Resolved?
      && Capped(c.shape, FirstSetRows(es[..k + 1]), c.max, s.answer.rows, s.answer.truncated)
      && s.answer.truncated == s.answer.abandoned == !es[k].End?
      && (FirstColumns(es[..k + 1]).Some? ==> s.answer.columns == FirstColumns(es[..k + 1]).value && s.answer.rowCount == |s.answer.rows|)
      && (FirstColumns(es[..k + 1]).None? ==>
            s.answer.columns == [] && s.answer.rowCount == (var n := FirstStatus(c.affectedRows, es[..k + 1]); if n.Some? then n.value else 0))
  }

  // ----- reading a result

  class Query {
    const settings: Settings
    const out: Collector
    var sets: nat
    var current: Option<seq<Text>>
    var rowSet: Option<(nat, seq<Text>)>
    var affected: Option<nat>
    var settled: bool
    /** Every time the promise was resolved or rejected. */
    var settlements: seq<Settlement>
    ghost var seen: seq<Event>

    ghost predicate Valid()
      reads this, out
    {
      && out.Valid() && out.max == settings.max && out.shape == settings.shape
      && (settled <==> |settlements| == 1) && |settlements| <= 1
      && (!settled ==> Tracks())
      && (settled ==> exists k :: Decides(settings, seen, k) && Undecided(settings, seen, k) && Tells(settings, seen, k, settlements[0]))
    }

    /** Until it is settled, the fields say what the events so far amount to. */
    ghost predicate Tracks()
      reads this, out
    {
      && Undecided(settings, seen, |seen|) && !out.truncated && out.offered == FirstSetRows(seen)
      && current == Current(seen) && affected == FirstStatus(settings.affectedRows, seen)
      && (rowSet.Some? <==> FirstColumns(seen).Some?)
      && (rowSet.Some? ==> rowSet.value.1 == FirstColumns(seen).value && rowSet.value.0 <= sets)
      && (rowSet.Some? && sets == rowSet.value.0 <==> InFirstSet(seen))
      && (InFirstSet(seen) ==> current.Some?)
    }

    constructor (settings: Settings)
      ensures Valid() && fresh(out) && this.settings == settings && seen == [] && !settled
    {
      var c := new Collector(settings.max, settings.shape);
      this.settings, out := settings, c;
      sets, current, rowSet, affected, settled, settlements := 0, None, None, None, false, [];
      seen := [];
    }

    method Settle(s: Settlement)
      modifies this`settled, this`settlements
      ensures settled
      ensures settlements == if old(settled) then old(settlements) else old(settlements) + [s]
    {
      if settled {
        return;
      }
      settled := true;
      settlements := settlements + [s];
    }

    /** The answer as it stands. */
    function AnswerNow(abandoned: bool): Answer
      reads this, out
    {
      Answer(
        if rowSet.Some? then rowSet.value.1 else [],
        out.rows,
        if rowSet.Some? then |out.rows| else if affected.Some? then affected.value else 0,
        out.truncated,
        abandoned)
    }

    method OnFields(columns: Option<seq<Text>>)
      modifies this`sets, this`current, this`rowSet
      ensures sets == old(sets) + 1 && current == columns
      ensures rowSet == if columns.Some? && old(rowSet).None? then Some((sets, columns.value)) else old(rowSet)
    {
      sets := sets + 1;
      current := columns;
      if columns.Some? && rowSet.None? {
        rowSet := Some((sets, columns.value));
      }
    }

    /** A status is remembered, a row of the first set collected; one that does not fit ends it all. */
    method OnResult(row: Row)
      requires out.Valid()
      modifies this`affected, this`settled, this`settlements, out
      ensures out.Valid()
      ensures old(settled) ==> settled && settlements == old(settlements)
      ensures !old(settled) && current.None? ==>
        !settled && settlements == old(settlements) && out.offered == old(out.offered) && out.truncated == old(out.truncated)
        && affected == (if old(affected).Some? then old(affected) else Some(settings.affectedRows(row)))
      ensures !old(settled) && current.Some? ==> affected == old(affected)
      ensures !old(settled) && current.Some? && !(rowSet.Some? && sets == rowSet.value.0) ==>
        !settled && settlements == old(settlements) && out.offered == old(out.offered) && out.truncated == old(out.truncated)
      ensures !old(settled) && current.Some? && rowSet.Some? && sets == rowSet.value.0 ==>
        && out.offered == old(out.offered) + [row] && (settled <==> out.truncated)
        && settlements == old(settlements) + (if out.truncated then [Resolved(AnswerNow(true))] else [])
    {
      hide Capped;
      if settled {
        return;
      }
      if current.None? {
        if affected.None? {
          affected := Some(settings.affectedRows(row));
        }
      } else if rowSet.Some? && sets == rowSet.value.0 {
        var taken := out.Add(row);
        if !taken {
          Settle(Resolved(AnswerNow(true)));
        }
      }
    }

    /** After it is settled, nothing matters. */
    lemma SettledStays(e: Event)
      requires Valid() && settled
      ensures exists k :: Decides(settings, seen + [e], k) && Undecided(settings, seen + [e], k) && Tells(settings, seen + [e], k, settlements[0])
    {
      var k :| Decides(settings, seen, k) && Undecided(settings, seen, k) && Tells(settings, seen, k, settlements[0]);
      DecidedStays(settings, seen, e, k, settlements[0]);
    }

    method HandleFields(columns: Option<seq<Text>>)
      requires Valid()
      modifies this
      ensures Valid() && seen == old(seen) + [Fields(columns)] && settlements == old(settlements)
    {
      ghost var e := Fields(columns);
      OneMore(settings, seen, e);
      if settled {
        SettledStays(e);
      }
      hide Capped, Fits, Decides, Tells, Undecided, Current, FirstColumns, InFirstSet, FirstSetRows, FirstStatus;
      OnFields(columns);
      if !settled {
        StillUndecided(settings, seen, e, out);
      }
      seen := seen + [e];
    }

    method HandleResult(row: Row)
      requires Valid()
      modifies this, out
      ensures Valid() && seen == old(seen) + [Result(row)]
      ensures settlements == old(settlements) || (old(settlements) == [] && |settlements| == 1)
    {
      ghost var e := Result(row);
      ghost var was := settled;
      OneMore(settings, seen, e);
      if settled {
        SettledStays(e);
      }
      hide Capped, Fits, Decides, Tells, Undecided, Current, FirstColumns, InFirstSet, FirstSetRows, FirstStatus;
      OnResult(row);
      if !was && settled {
        DecidedNow(settings, seen, e, out, settlements[0]);
      } else if !was {
        StillUndecided(settings, seen, e, out);
      }
      seen := seen + [e];
    }

    method HandleEnding(e: Event)
      requires Valid() && !e.Fields? && !e.Result?
      modifies this
      ensures Valid() && seen == old(seen) + [e]
      ensures settlements == old(settlements) || (old(settlements) == [] && |settlements| == 1)
    {
      ghost var was := settled;
      OneMore(settings, seen, e);
      if settled {
        SettledStays(e);
      }
      hide Capped, Fits, Decides, Tells, Undecided, Current, FirstColumns, InFirstSet, FirstSetRows, FirstStatus;
      match e {
        case Error(fatal) => Settle(Rejected(fatal));
        case Lost => Settle(Rejected(true));
        case Timer => Settle(TimedOut);
        case End => Settle(Resolved(AnswerNow(false)));
      }
      if !was {
        DecidedNow(settings, seen, e, out, settlements[0]);
      }
      seen := seen + [e];
    }

    /** One event of the driver, or of the timer. */
    method Handle(e: Event)
      requires Valid()
      modifies this, out
      ensures Valid() && seen == old(seen) + [e]
      ensures settlements == old(settlements) || (old(settlements) == [] && |settlements| == 1)
    {
      hide Capped, Decides, Tells, Undecided;
      match e {
        case Fields(columns) => HandleFields(columns);
        case Result(row) => HandleResult(row);
        case _ => HandleEnding(e);
      }
    }
  }

  /** A later event decides nothing about the earlier ones. */
  lemma SameDecisions(c: Settings, es: seq<Event>, e: Event)
    ensures forall j :: 0 <= j < |es| ==> Decides(c, es + [e], j) == Decides(c, es, j)
    ensures forall n :: 0 <= n <= |es| ==> Undecided(c, es + [e], n) == Undecided(c, es, n)
    ensures (es + [e])[..|es|] == es && (es + [e])[..|es| + 1] == es + [e]
  {
    hide Overflows;
    forall j | 0 <= j < |es| ensures Decides(c, es + [e], j) == Decides(c, es, j) {
      assert (es + [e])[..j + 1] == es[..j + 1];
    }
  }

  /** An event that does not settle the statement. */
  lemma StillUndecided(c: Settings, es: seq<Event>, e: Event, out: Collector)
    requires Undecided(c, es, |es|) && (e.Fields? || e.Result?)
    requires out.Valid() && !out.truncated && out.max == c.max && out.shape == c.shape && out.offered == FirstSetRows(es + [e])
    ensures Undecided(c, es + [e], |es| + 1)
  {
    SameDecisions(c, es, e);
    AllFits(out);
    NoOverflow(c, es + [e], out);
    hide Overflows, FirstSetRows, Capped, Fits;
  }

  lemma NoOverflow(c: Settings, es: seq<Event>, out: Collector)
    requires out.max == c.max && out.shape == c.shape && out.offered == FirstSetRows(es)
    requires Fits(out.shape, out.offered, out.max, |out.offered|)
    ensures !Overflows(c, es)
  {
    hide FirstSetRows, InFirstSet, Fits;
  }

  lemma AllFits(out: Collector)
    requires out.Valid()
    ensures Fits(out.shape, out.offered, out.max, |out.offered|) <==> !out.truncated
  {
    assert out.offered[..|out.offered|] == out.offered;
    if out.truncated && Fits(out.shape, out.offered, out.max, |out.offered|) {
      FitsDownward(out.shape, out.offered, out.max, |out.rows| + 1, |out.offered|);
    }
    hide Size, Shaped;
  }

  /** The event that settles it. */
  lemma DecidedNow(c: Settings, es: seq<Event>, e: Event, out: Collector, s: Settlement)
    requires Undecided(c, es, |es|) && out.Valid() && out.max == c.max && out.shape == c.shape && out.offered == FirstSetRows(es + [e])
    requires !e.Fields?
    requires e.Result? ==> InFirstSet(es) && out.truncated
    requires !e.Result? ==> !out.truncated
    requires e.Timer? ==> s == TimedOut
    requires e.Error? ==> s == Rejected(e.fatal)
    requires e.Lost? ==> s == Rejected(true)
    requires e.Result? || e.End? ==>
      var columns, status := FirstColumns(es + [e]), FirstStatus(c.affectedRows, es + [e]);
      s == Resolved(Answer(
        if columns.Some? then columns.value else [], out.rows,
        if columns.Some? then |out.rows| else if status.Some? then status.value else 0, out.truncated, e.Result?))
    ensures Decides(c, es + [e], |es|) && Undecided(c, es + [e], |es|) && Tells(c, es + [e], |es|, s)
  {
    SameDecisions(c, es, e);
    AllFits(out);
    hide FirstColumns, FirstSetRows, FirstStatus, Capped, Fits, InFirstSet, Undecided;
  }

  /** What one more event adds. */
  lemma OneMore(c: Settings, es: seq<Event>, e: Event)
    ensures var after := es + [e];
      && Current(after) == (if e.Fields? then e.columns else Current(es))
      && FirstColumns(after) == (if FirstColumns(es).None? && e.Fields? then e.columns else FirstColumns(es))
      && InFirstSet(after) == (if e.Fields? then e.columns.Some? && FirstColumns(es).None? else InFirstSet(es))
      && FirstSetRows(after) == FirstSetRows(es) + (if e.Result? && InFirstSet(es) then [e.row] else [])
      && FirstStatus(c.affectedRows, after) ==
        (if FirstStatus(c.affectedRows, es).None? && e.Result? && Current(es).None? then Some(c.affectedRows(e.row)) else FirstStatus(c.affectedRows, es))
  {
    assert (es + [e])[..|es|] == es;
  }

  lemma DecidedStays(c: Settings, es: seq<Event>, e: Event, k: nat, s: Settlement)
    requires Decides(c, es, k) && Undecided(c, es, k) && Tells(c, es, k, s)
    ensures Decides(c, es + [e], k) && Undecided(c, es + [e], k) && Tells(c, es + [e], k, s)
  {
    SameDecisions(c, es, e);
    assert (es + [e])[..k + 1] == es[..k + 1];
    hide Overflows, Capped, FirstColumns, FirstSetRows, FirstStatus;
  }

  /** What the caller is told of a statement is decided by one event, the first that can. */
  ghost predicate Told(c: Settings, events: seq<Event>, k: nat, s: Settlement) {
    k < |events| && Decides(c, events, k) && Undecided(c, events, k) && Tells(c, events, k, s)
  }

  /** Reads a statement's events, whatever their order; the timer goes off in the end. The promise is
      settled once, and as its first deciding event says. */
  method Collect(c: Settings, events: seq<Event>) returns (s: Settlement)
    requires Timer in events
    ensures exists k :: Told(c, events, k, s)
  {
    var query := new Query(c);
    hide Decides, Tells, Undecided;
    for i := 0 to |events|
      invariant query.Valid() && query.settings == c && query.seen == events[..i] && fresh(query) && fresh(query.out)
    {
      assert events[..i + 1] == events[..i] + [events[i]];
      query.Handle(events[i]);
    }
    assert events[..|events|] == events;
    TimerDecides(c, events);
    s := query.settlements[0];
    assert exists k :: Told(c, events, k, s) by { ToldBy(query); }
  }

  lemma ToldBy(query: Query)
    requires query.Valid() && query.settled
    ensures exists k :: Told(query.settings, query.seen, k, query.settlements[0])
  {
    hide Overflows, Tells, Undecided;
    var c, es := query.settings, query.seen;
    var k :| Decides(c, es, k) && Undecided(c, es, k) && Tells(c, es, k, query.settlements[0]);
    assert Told(c, es, k, query.settlements[0]);
  }

  lemma TimerDecides(c: Settings, events: seq<Event>)
    requires Timer in events
    ensures !Undecided(c, events, |events|)
  {
    hide Overflows;
    var i :| 0 <= i < |events| && events[i] == Timer;
    assert Decides(c, events, i);
  }

  // ----- the connection it ran on

  datatype Mode = ReadOnly | ReadWrite

  datatype Command = SetLimit | SetReadOnly | StartReadOnly | StartTransaction | Commit | Reset | SetNames

  datatype Reply = Done | Fails(fatal: bool)

  /** `Killed` is a KILL CONNECTION for this one, sent over the control connection. */
  datatype Action = Sent(command: Command, done: bool) | Statement | Killed | Released | Destroyed

  /** The connection is with its caller: not given back yet, and not closed. */
  predicate InUse(log: seq<Action>) {
    forall i :: 0 <= i < |log| ==> !log[i].Released? && !log[i].Destroyed?
  }

  /** It was given back or closed, once, and nothing was done with it afterwards. */
  predicate Finished(log: seq<Action>) {
    log != [] && InUse(log[..|log| - 1]) && (log[|log| - 1].Released? || log[|log| - 1].Destroyed?)
  }

  /** What was done before is all there is of statements and commits. */
  predicate SameWork(before: seq<Action>, after: seq<Action>) {
    && before <= after
    && (Statement in after <==> Statement in before)
    && (Killed in after <==> Killed in before)
    && (CommitSent(after) <==> CommitSent(before))
    && (Sent(Commit, true) in after <==> Sent(Commit, true) in before)
  }

  predicate CommitSent(log: seq<Action>) {
    exists i :: 0 <= i < |log| && log[i].Sent? && log[i].command.Commit?
  }

  class Connection {
    const replies: nat -> Reply
    /** The server's id of this connection is known. */
    const threadKnown: bool
    var log: seq<Action>

    constructor (replies: nat -> Reply, threadKnown: bool)
      ensures log == [] && this.replies == replies && this.threadKnown == threadKnown
    {
      this.replies, this.threadKnown, log := replies, threadKnown, [];
    }

    /** Has the server end the statement, and with it the session and its transaction. */
    method Stop()
      requires InUse(log)
      modifies this
      ensures log == (if threadKnown then old(log) + [Killed] else old(log)) && InUse(log)
    {
      if threadKnown {
        log := log + [Killed];
      }
    }

    method Send(command: Command) returns (r: Reply)
      requires InUse(log)
      modifies this
      ensures log == old(log) + [Sent(command, r.Done?)] && InUse(log)
    {
      r := replies(|log|);
      log := log + [Sent(command, r.Done?)];
    }

    /** Given back to the pool only once it is reset; closed otherwise. */
    method PutBack()
      requires InUse(log)
      modifies this
      ensures Finished(log) && SameWork(old(log), log)
      ensures log[|log| - 1].Released? ==> log == old(log) + [Sent(Reset, true), Sent(SetNames, true), Released]
    {
      var r := Send(Reset);
      if r.Done? {
        r := Send(SetNames);
      }
      log := log + [if r.Done? then Released else Destroyed];
    }

    method Discard()
      requires InUse(log)
      modifies this
      ensures log == old(log) + [Destroyed] && Finished(log) && SameWork(old(log), log)
    {
      log := log + [Destroyed];
    }

    /** Up to where the statement runs. */
    method Prepare(mode: Mode) returns (failed: Option<bool>)
      requires log == []
      modifies this
      ensures InUse(log) && !CommitSent(log) && Statement !in log && Killed !in log
      ensures failed.None? ==> log == if mode.ReadOnly?
        then [Sent(SetLimit, true), Sent(SetReadOnly, true), Sent(StartReadOnly, true)]
        else [Sent(SetLimit, true), Sent(StartTransaction, true)]
    {
      var r := Send(SetLimit);
      if r.Done? && mode.ReadOnly? {
        r := Send(SetReadOnly);
      }
      if r.Done? {
        r := Send(if mode.ReadOnly? then StartReadOnly else StartTransaction);
      }
      return if r.Done? then None else Some(r.fatal);
    }

    /** The statement, its result, and the COMMIT of a whole one; and whether the connection may be
        used again. */
    method Execute(mode: Mode, c: Settings, events: seq<Event>) returns (answer: Option<Answer>, reusable: bool, ghost k: nat)
      requires InUse(log) && !CommitSent(log) && Killed !in log && Timer in events
      modifies this
      ensures InUse(log) && old(log) + [Statement] <= log && Statement in log
      ensures k < |events| && Decides(c, events, k) && Undecided(c, events, k)
      ensures answer.Some? ==> Tells(c, events, k, Resolved(answer.value))
      ensures CommitSent(log) ==> mode.ReadWrite? && events[k].End?
      ensures answer.Some? && mode.ReadWrite? && events[k].End? ==> Sent(Commit, true) in log
      ensures reusable ==> events[k].End? || events[k].Error?
      ensures events[k].End? && mode.ReadOnly? ==> answer.Some? && reusable
      ensures Killed in log <==> threadKnown && (events[k].Timer? || events[k].Result?)
      ensures Killed in log ==> !reusable && !CommitSent(log)
    {
      log := log + [Statement];
      hide Tells, Decides, Undecided;
      var s := Collect(c, events);
      k :| Told(c, events, k, s);
      ToldOf(c, events, k, s);
      if s.TimedOut? {
        Stop();
        return None, false, k;
      }
      if s.Rejected? {
        return None, !s.fatal, k;
      }
      if s.answer.abandoned {
        Stop();
        return Some(s.answer), false, k;
      }
      if mode.ReadWrite? {
        var r := Send(Commit);
        assert log[|log| - 1] == Sent(Commit, r.Done?);
        if !r.Done? {
          return None, !r.fatal, k;
        }
      }
      return Some(s.answer), true, k;
    }

    /** One statement: whatever happens, the connection is given back after a reset, or closed, and
        never both; the server is asked to end a statement exactly if it ran out of time or over the
        cap, and then the connection is closed; COMMIT is sent only in read-write mode, after the statement's own end came before
        its time was up and without a row over the cap; and an answer in read-write mode that is not
        cut off is committed. */
    method Run(mode: Mode, c: Settings, events: seq<Event>) returns (answer: Option<Answer>, ghost k: nat)
      requires log == [] && Timer in events
      modifies this
      ensures Finished(log)
      ensures log[|log| - 1].Released? ==> |log| >= 3 && log[|log| - 3..] == [Sent(Reset, true), Sent(SetNames, true), Released]
      ensures Statement in log ==> k < |events| && Decides(c, events, k) && Undecided(c, events, k)
      ensures CommitSent(log) ==> Statement in log && mode.ReadWrite? && events[k].End?
      ensures answer.Some? ==> Statement in log && Tells(c, events, k, Resolved(answer.value))
      ensures answer.Some? && mode.ReadWrite? && events[k].End? ==> Sent(Commit, true) in log
      ensures Statement in log && log[|log| - 1].Released? ==> events[k].End? || events[k].Error?
      ensures Killed in log <==> Statement in log && threadKnown && (events[k].Timer? || events[k].Result?)
      ensures Killed in log ==> log[|log| - 1].Destroyed? && !CommitSent(log)
    {
      hide Tells, Decides, Undecided;
      k := 0;
      answer := None;
      var reusable := true;
      var failed := Prepare(mode);
      if failed.Some? {
        reusable := !failed.value;
      } else {
        answer, reusable, k := Execute(mode, c, events);
      }
      hide CommitSent, Finished, InUse;
      if reusable {
        PutBack();
      } else {
        Discard();
      }
    }
  }

  lemma ToldOf(c: Settings, events: seq<Event>, k: nat, s: Settlement)
    requires Told(c, events, k, s)
    ensures k < |events|
    ensures s.Resolved? ==> s.answer.abandoned == !events[k].End?
    ensures s.Rejected? ==> s.fatal || events[k].Error?
    ensures events[k].End? ==> s.Resolved?
    ensures s.TimedOut? <==> events[k].Timer?
    ensures events[k].Result? <==> s.Resolved? && s.answer.abandoned
  {
    hide FirstColumns, FirstSetRows, FirstStatus, Capped, Undecided, InFirstSet, Fits;
  }
}
