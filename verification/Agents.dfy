/** The agent's tool-use loop, with its checkpoints, its resumption after a crash, its compactions
    and its one retry after a context overflow.

    The provider, the tools and the moments at which the process dies are oracles. It may die at any
    awaited call; then only the checkpoint last saved and the session are left of the run. */
module Agents {
  import opened Wrappers
  import opened Numbers
  import opened Texts
  import opened Conversation
  import Context
  import Json

  datatype Status = Running | Failed | Done

  datatype Executed = Executed(name: Text, input: Json.Json, result: Json.Json)

  datatype Checkpoint = Checkpoint(
    status: Status,
    turnCount: nat,
    messages: seq<Message>,
    executed: seq<Executed>,
    text: Option<Text>)

  datatype StopReason = End | ToolCalls | Length | ContentFilter | Refusal | Other | Absent

  /** What the provider answers: a turn, that the request did not fit, that it was aborted, or any
      other failure. */
  datatype Reply = Turn(text: Option<Text>, calls: seq<Call>, stop: StopReason) | Overflow | Aborted | Error

  /** How a tool call ends; `Refuses` is a guardrail that tripped, `Aborts` any failure of a
      cancelled run. */
  datatype ToolOutcome = Returns(value: Json.Json) | Fails(message: Text) | Refuses | Aborts

  datatype Stop = Refused | Cancelled | Truncated | BadOutput | Flagged | ProviderFailed | TooManyTurns

  datatype Outcome = Answer(text: Text) | Crashed | Threw(stop: Stop)

  datatype Step = Ended(out: Outcome) | Again | Repaired | Called

  // ----- what is true at every moment

  /** A history a run may resume from: nothing but a trailing run of the last group's results is
      missing, and pendingToolCalls finds what is. */
  predicate Ready(ms: seq<Message>) {
    Resumable(ms) && FreshCalls(Missing(ms), ms)
  }

  predicate SavedOk(saved: Option<Checkpoint>) {
    saved.Some? ==> Ready(saved.value.messages) && (saved.value.status.Done? ==> Complete(saved.value.messages))
  }

  /** Every history the provider was sent is complete. */
  predicate SentOk(sent: seq<seq<Message>>) {
    forall i :: 0 <= i < |sent| ==> Complete(sent[i])
  }

  function SavedExecuted(saved: Option<Checkpoint>): seq<Executed> {
    if saved.Some? then saved.value.executed else []
  }

  /** The saved log is the log without its last entries, at most `n`. */
  predicate Behind(saved: Option<Checkpoint>, executed: seq<Executed>, n: nat) {
    SavedExecuted(saved) <= executed && |executed| <= |SavedExecuted(saved)| + n
  }

  /** Reasons that make a turn unusable. */
  predicate CutOff(reason: StopReason) {
    reason.Length? || reason.ContentFilter? || reason.Refusal?
  }

  /** The run ended before its limit, and without an answer. */
  predicate BrokenOff(out: Outcome) {
    out.Crashed? || (out.Threw? && !out.stop.TooManyTurns?)
  }

  /** The run ended from outside, or by a tool's refusal. */
  predicate Interrupted(out: Outcome) {
    out.Crashed? || out == Threw(Refused) || out == Threw(Cancelled)
  }

  function StopOf(outcome: ToolOutcome): Stop {
    if outcome.Refuses? then Refused else Cancelled
  }

  /** Just these calls were run, in order. */
  predicate Logged(before: seq<Executed>, calls: seq<Call>, after: seq<Executed>) {
    && |after| == |before| + |calls| && before <= after
    && forall i :: 0 <= i < |calls| ==> after[|before| + i].name == calls[i].name && after[|before| + i].input == calls[i].input
  }

  /** The first calls to be run are these, and none of them is left out. */
  predicate RunsFirst(before: seq<Executed>, calls: seq<Call>, after: seq<Executed>) {
    |after| >= |before| + |calls| ==> Logged(before, calls, after[..|before| + |calls|])
  }

  lemma RunsFirstStays(before: seq<Executed>, calls: seq<Call>, sofar: seq<Executed>, after: seq<Executed>)
    requires Logged(before, calls, sofar) && sofar <= after
    ensures RunsFirst(before, calls, after)
  {
    assert after[..|before| + |calls|] == sofar;
  }

  lemma LoggedOneMore(before: seq<Executed>, calls: seq<Call>, i: nat, sofar: seq<Executed>, after: seq<Executed>)
    requires i < |calls| && Logged(before, calls[..i], sofar) && |after| > 0 && after == sofar + [after[|after| - 1]]
    requires after[|after| - 1].name == calls[i].name && after[|after| - 1].input == calls[i].input
    ensures Logged(before, calls[..i + 1], after)
  {
    assert forall j :: 0 <= j < |sofar| ==> after[j] == sofar[j];
  }

  /** `messages` is what compactions left of the whole history: its last messages, the first of
      which may have made way for a summary. */
  predicate Tail(messages: seq<Message>, whole: seq<Message>) {
    && |messages| <= |whole|
    && (forall i :: 0 < i < |messages| ==> messages[i] == whole[|whole| - |messages| + i])
    && (messages != [] && !messages[0].User? ==> messages[0] == whole[|whole| - |messages|])
  }

  /** A group is added to a history: a call's results follow it. */
  predicate AnsweredGroup(h: seq<Message>, said: Text, calls: seq<Call>, m: seq<Message>) {
    && |m| == |h| + 1 + |calls| && h + [Assistant(said, calls)] <= m
    && Answers(calls, m[|h| + 1..])
  }

  /** How many messages compactions dropped, less the summaries they put in. */
  function Dropped(messages: seq<Message>, whole: seq<Message>): nat
    requires |messages| <= |whole|
  {
    |whole| - |messages|
  }

  /** What a run that began with a session of `b` messages adds to it starts with no result. */
  predicate SessionHolds(messages: seq<Message>, whole: seq<Message>, b: nat)
    requires |messages| <= |whole|
  {
    var n := b + Dropped(messages, whole);
    b == 0 || n >= |whole| || !whole[n].ToolResult?
  }

  /** A run that ended with `messages` added them to its session, from the b-th on. */
  predicate Added(before: seq<Message>, after: seq<Message>, b: nat, messages: seq<Message>, whole: seq<Message>) {
    && Tail(messages, whole) && after == before + messages[Min(b, |messages|)..]
    && (Complete(before) ==> (Complete(after) <==> SessionHolds(messages, whole, b)))
  }

  function ErrorResult(message: Text): Json.Json {
    Json.Obj([Json.Field([101, 114, 114, 111, 114], Json.Str(message))])
  }

  /** What a process is set up with: the agent's options, and the oracles. */
  datatype Setup = Setup(
    tools: set<Text>,
    maxTurns: nat,
    schema: Option<Text -> bool>,
    maxRepairs: nat,
    flagged: Text -> bool,
    policy: Context.Policy,
    fixedTokens: nat,
    repairPrompt: Text -> Text,
    unknownTool: Text -> Text,
    llm: (nat, seq<Message>) -> Reply,
    tool: nat -> ToolOutcome,
    cancelled: nat -> bool,
    dies: nat -> bool)
  {
    /** The assumption on tool-call ids: a turn's are distinct, and none is that of a result in the
        history it answers. */
    ghost predicate Honest() {
      forall n, h :: llm(n, h).Turn? ==> FreshCalls(llm(n, h).calls, h)
    }
  }

  class Agent {
    const tools: set<Text>
    const maxTurns: nat
    const persist: bool
    const schema: Option<Text -> bool>
    const maxRepairs: nat
    const flagged: Text -> bool
    const policy: Context.Policy
    const fixedTokens: nat
    const repairPrompt: Text -> Text
    const unknownTool: Text -> Text
    /** The provider's answer to its n-th call, for the history it is sent. */
    const llm: (nat, seq<Message>) -> Reply
    const tool: nat -> ToolOutcome
    /** Whether the run is cancelled by the time of the n-th call. */
    const cancelled: nat -> bool
    /** Whether the process dies at its n-th awaited operation. */
    const dies: nat -> bool

    var messages: seq<Message>
    var executed: seq<Executed>
    var saved: Option<Checkpoint>
    var session: seq<Message>
    var llmCalls: nat
    var toolCalls: nat
    var awaits: nat
    /** Every history the provider was sent. */
    ghost var sent: seq<seq<Message>>
    /** The run's history as it would be without compactions. */
    ghost var whole: seq<Message>

    constructor (setup: Setup, persist: bool, saved: Option<Checkpoint>, prior: seq<Message>)
      ensures this.tools == setup.tools && this.maxTurns == setup.maxTurns && this.schema == setup.schema
      ensures this.maxRepairs == setup.maxRepairs && this.flagged == setup.flagged && this.policy == setup.policy
      ensures this.fixedTokens == setup.fixedTokens && this.repairPrompt == setup.repairPrompt
      ensures this.unknownTool == setup.unknownTool && this.llm == setup.llm && this.tool == setup.tool
      ensures this.cancelled == setup.cancelled && this.dies == setup.dies
      ensures this.persist == persist && this.saved == saved && session == prior && sent == [] && llmCalls == 0
    {
      tools, maxTurns, schema, maxRepairs := setup.tools, setup.maxTurns, setup.schema, setup.maxRepairs;
      flagged, policy, fixedTokens, repairPrompt := setup.flagged, setup.policy, setup.fixedTokens, setup.repairPrompt;
      unknownTool, llm, tool, cancelled, dies := setup.unknownTool, setup.llm, setup.tool, setup.cancelled, setup.dies;
      this.persist, this.saved, session := persist, saved, prior;
      messages, executed, llmCalls, toolCalls, awaits, sent, whole := [], [], 0, 0, 0, [], [];
    }

    /** The assumption of `Setup.Honest`. */
    ghost predicate Honest() {
      forall n, h :: llm(n, h).Turn? ==> FreshCalls(llm(n, h).calls, h)
    }

    ghost predicate Valid()
      reads this
    {
      Honest() && SavedOk(saved) && SentOk(sent) && |sent| == llmCalls
    }

    /** Nothing stops a run from outside: no death, no cancellation, no refusal of a tool. */
    ghost predicate Smooth() {
      forall n :: !dies(n) && !cancelled(n) && (tool(n).Returns? || tool(n).Fails?)
    }

    lemma SmoothAt(n: nat)
      ensures Smooth() ==> !dies(n) && !cancelled(n) && (tool(n).Returns? || tool(n).Fails?)
    {
    }

    // ----- what one call of the provider leads to

    predicate Accepts(text: Text) {
      schema.None? || schema.value(text)
    }

    /** The history after the n-th reply to `h`, if the run goes on from there. */
    ghost predicate GoesOn(n: nat, h: seq<Message>, m: seq<Message>) {
      match llm(n, h)
      case Overflow => CompactsTo(h, EmergencyPolicy(h), m)
      case Aborted | Error => false
      case Turn(text, calls, stop) =>
        && !CutOff(stop)
        && if calls == [] then !Accepts(TextOr(text)) && m == h + [Assistant(TextOr(text), [])] + [User(repairPrompt(TextOr(text)))]
           else AnsweredGroup(h, TextOr(text), calls, m)
    }

    /** The n-th reply to `h` is an answer. */
    ghost predicate Gives(n: nat, h: seq<Message>, text: Text) {
      var reply := llm(n, h);
      reply.Turn? && !CutOff(reply.stop) && reply.calls == [] && TextOr(reply.text) == text && Accepts(text) && !flagged(text)
    }

    /** The n-th reply to `h` ends the run for this reason. */
    ghost predicate EndsWith(n: nat, h: seq<Message>, stop: Stop) {
      var reply := llm(n, h);
      match stop
      case Truncated => reply.Turn? && CutOff(reply.stop)
      case BadOutput => reply.Turn? && !CutOff(reply.stop) && reply.calls == [] && !Accepts(TextOr(reply.text))
      case Flagged => reply.Turn? && !CutOff(reply.stop) && reply.calls == [] && flagged(TextOr(reply.text))
      case ProviderFailed => !reply.Turn?
      case _ => true
    }

    ghost predicate CompactsTo(h: seq<Message>, p: Context.Policy, m: seq<Message>) {
      exists dropped, n :: Context.CompactedTo(h, fixedTokens, p, Context.CompactionResult(m, dropped, n))
    }

    function EmergencyPolicy(h: seq<Message>): Context.Policy {
      Context.EmergencyPolicy(h, fixedTokens, policy)
    }

    /** There is nothing that may be dropped, or, with a negative reserve, nothing that need be. */
    ghost predicate Undroppable(h: seq<Message>) {
      (forall k :: k > 0 ==> !Context.MayCut(h, policy.KeepRecent(), k)) || !Context.OverEmergency(h, fixedTokens, policy)
    }

    /** What is sent next, after the n-th reply to `h`. */
    ghost predicate LeadsTo(n: nat, h: seq<Message>, h': seq<Message>) {
      exists m :: GoesOn(n, h, m) && CompactsTo(m, policy, h')
    }

    /** From the n-th call of the provider on, each history sent comes of the one before it. */
    ghost predicate Linked(start: nat)
      reads this`sent
    {
      forall i :: start <= i < |sent| - 1 ==> LeadsTo(i, sent[i], sent[i + 1])
    }

    /** The run's calls of the provider are those from the n-th on, the first for `begun`. */
    ghost predicate Traced(start: nat, begun: seq<Message>)
      reads this`sent
    {
      start <= |sent| && Linked(start) && (|sent| > start ==> CompactsTo(begun, policy, sent[start]))
    }

    /** And `messages` is what the last of them led to. */
    ghost predicate Current(start: nat, begun: seq<Message>)
      reads this`sent, this`messages
    {
      && Traced(start, begun)
      && (if |sent| == start then messages == begun else GoesOn(|sent| - 1, sent[|sent| - 1], messages))
    }

    /** How the run ended, by the provider's last reply. */
    ghost predicate Explained(start: nat, out: Outcome)
      reads this
    {
      && (out.Answer? ==>
            && |sent| > start && messages == sent[|sent| - 1] + [Assistant(out.text, [])]
            && Gives(|sent| - 1, sent[|sent| - 1], out.text))
      && (out.Threw? && (out.stop.Truncated? || out.stop.BadOutput? || out.stop.Flagged? || out.stop.ProviderFailed?) ==>
            |sent| > start && EndsWith(|sent| - 1, sent[|sent| - 1], out.stop))
      && (Smooth() ==> !out.Crashed? && !(out.Threw? && (out.stop.Refused? || out.stop.Cancelled?)))
    }

    // ----- the session

    /** The run's messages from the b-th on were added to the session. */
    ghost predicate Extended(before: seq<Message>, b: nat)
      reads this`session, this`messages, this`whole
    {
      Added(before, session, b, messages, whole)
    }

    lemma SessionExtends(before: seq<Message>, b: nat)
      requires Tail(messages, whole) && Complete(messages) && session == before + messages[Min(b, |messages|)..]
      ensures Extended(before, b)
    {
      if Complete(before) {
        AfterComplete(before, messages[Min(b, |messages|)..]);
        if b < |messages| {
          CutCompleteIff(messages, b);
          assert b == 0 ==> messages[0..] == messages;
        } else {
          assert messages[|messages|..] == [] && Complete([]);
        }
      }
    }

    /** One awaited operation; false if the process dies before it. */
    method Await() returns (alive: bool)
      modifies this`awaits
      ensures awaits == old(awaits) + 1 && alive == !dies(old(awaits))
    {
      alive := !dies(awaits);
      awaits := awaits + 1;
    }

    /** The checkpoint is the history and the log as they are. */
    predicate IsSaved(status: Status, turnCount: nat, text: Option<Text>)
      reads this
    {
      saved == Some(Checkpoint(status, turnCount, messages, executed, text))
    }

    method SaveCheckpoint(turnCount: nat, status: Status, text: Option<Text>) returns (alive: bool)
      requires Valid() && Ready(messages) && (status.Done? ==> Complete(messages))
      modifies this`awaits, this`saved
      ensures Valid()
      ensures if alive && persist then IsSaved(status, turnCount, text) else saved == old(saved)
      ensures Smooth() ==> alive
    {
      alive := Await();
      if alive && persist {
        saved := Some(Checkpoint(status, turnCount, messages, executed, text));
      }
    }

    /** What a call feeds back to the provider: its value, or its failure; nothing when it ends the run. */
    function ResultOf(call: Call, n: nat): Option<Json.Json> {
      if call.name !in tools then Some(ErrorResult(unknownTool(call.name)))
      else match tool(n)
        case Returns(value) => Some(value)
        case Fails(message) => Some(ErrorResult(message))
        case _ => None
    }

    /** Runs the next missing call, and adds its result to the history and to the log. */
    method RunToolCall(call: Call, turnCount: nat, turnText: Option<Text>) returns (stop: Option<Outcome>)
      requires Valid() && Ready(messages) && Missing(messages) != [] && call == Missing(messages)[0]
      modifies this`awaits, this`saved, this`messages, this`whole, this`executed, this`toolCalls
      ensures Valid() && Ready(messages)
      ensures Smooth() ==> stop.None?
      ensures stop.None? ==>
        && saved == old(saved)
        && Missing(messages) == old(Missing(messages))[1..]
        && var result := ResultOf(call, old(toolCalls));
          && result.Some?
          && messages == old(messages) + [ToolResult(call.id, call.name, result.value)]
          && (old(Tail(messages, whole)) ==> Tail(messages, whole)) && old(whole) <= whole
          && executed == old(executed) + [Executed(call.name, call.input, result.value)]
      ensures stop.Some? ==>
        && (stop.value.Crashed? || (ResultOf(call, old(toolCalls)).None? && stop.value == Threw(StopOf(tool(old(toolCalls))))))
        && messages == old(messages) && executed == old(executed)
        && (saved == old(saved) || SavedExecuted(saved) == executed)
    {
      hide Complete, Resumable, FreshCalls, Missing, SentOk, SavedOk, Tail, Smooth;
      SmoothAt(toolCalls);
      SmoothAt(awaits);
      var result: Json.Json;
      if call.name !in tools {
        result := ErrorResult(unknownTool(call.name));
      } else {
        var alive := Await();
        if !alive {
          return Some(Crashed);
        }
        var outcome := tool(toolCalls);
        toolCalls := toolCalls + 1;
        match outcome {
          case Refuses | Aborts =>
            alive := SaveCheckpoint(turnCount, Failed, turnText);
            return Some(if alive then Threw(StopOf(outcome)) else Crashed);
          case Fails(message) => result := ErrorResult(message);
          case Returns(value) => result := value;
        }
      }
      NextResultReady(messages, result);
      TailGrows(messages, whole, ToolResult(call.id, call.name, result));
      executed := executed + [Executed(call.name, call.input, result)];
      messages, whole := messages + [ToolResult(call.id, call.name, result)], whole + [ToolResult(call.id, call.name, result)];
      return None;
    }

    /** The first `i` of `calls` are done; in the loop, each but the last is saved. */
    ghost predicate Progress(calls: seq<Call>, i: nat, before: seq<Message>, kept: seq<Message>, logged: seq<Executed>, synced: bool, checkpointEach: bool)
      reads this
    {
      && kept <= whole && (Tail(before, kept) ==> Tail(messages, whole))
      && Valid() && Ready(messages) && i <= |calls| && Missing(messages) == calls[i..]
      && before <= messages && |messages| == |before| + i
      && Logged(logged, calls[..i], executed)
      && (synced ==> Behind(saved, executed, if !checkpointEach then i else if i < |calls| then 0 else 1))
    }

    method RunNextCall(calls: seq<Call>, i: nat, turnCount: nat, turnText: Option<Text>, checkpointEach: bool,
                       ghost before: seq<Message>, ghost kept: seq<Message>, ghost logged: seq<Executed>, ghost synced: bool)
      returns (stop: Option<Outcome>)
      requires Progress(calls, i, before, kept, logged, synced, checkpointEach) && i < |calls| && (synced ==> persist)
      modifies this`awaits, this`saved, this`messages, this`whole, this`executed, this`toolCalls
      ensures stop.None? ==> Progress(calls, i + 1, before, kept, logged, synced, checkpointEach)
      ensures Smooth() ==> stop.None?
      ensures stop.None? && checkpointEach && i < |calls| - 1 && persist ==> IsSaved(Running, turnCount, None)
      ensures stop.Some? ==>
        && Valid() && Interrupted(stop.value) && logged <= executed && |executed| < |logged| + |calls|
        && (synced ==> Behind(saved, executed, if checkpointEach then 1 else |calls|))
    {
      ghost var sofar := executed;
      assert calls[i..][0] == calls[i] && calls[i..][1..] == calls[i + 1..];
      hide Ready, Complete, Missing, SentOk, SavedOk, Tail, Smooth;
      stop := RunToolCall(calls[i], turnCount, turnText);
      if stop.Some? {
        return;
      }
      LoggedOneMore(logged, calls, i, sofar, executed);
      if checkpointEach && i < |calls| - 1 {
        var alive := SaveCheckpoint(turnCount, Running, None);
        return if alive then None else Some(Crashed);
      }
    }

    /** Runs the calls of the last group that have no result. In the loop, a checkpoint follows each
        but the last. */
    method RunToolCalls(calls: seq<Call>, turnCount: nat, turnText: Option<Text>, checkpointEach: bool) returns (stop: Option<Outcome>)
      requires Valid() && Ready(messages) && calls == Missing(messages)
      modifies this`awaits, this`saved, this`messages, this`whole, this`executed, this`toolCalls
      ensures Valid()
      ensures Smooth() ==> stop.None?
      ensures stop.None? && old(Tail(messages, whole)) ==> Tail(messages, whole)
      ensures stop.None? ==> old(whole) <= whole
      ensures old(executed) <= executed
      ensures persist && old(Behind(saved, executed, 0)) ==> Behind(saved, executed, if checkpointEach then 1 else |calls|)
      ensures stop.None? ==> Complete(messages) && old(messages) <= messages && |messages| == |old(messages)| + |calls|
      ensures stop.None? ==> Logged(old(executed), calls, executed)
      ensures stop.Some? ==> Interrupted(stop.value) && |executed| < |old(executed)| + |calls|
    {
      ghost var synced := persist && Behind(saved, executed, 0);
      assert calls[..0] == [] && calls[0..] == calls && calls[..|calls|] == calls;
      assert Progress(calls, 0, messages, whole, executed, synced, checkpointEach);
      hide Progress, Tail, Smooth;
      for i := 0 to |calls|
        invariant Progress(calls, i, old(messages), old(whole), old(executed), synced, checkpointEach)
      {
        stop := RunNextCall(calls, i, turnCount, turnText, checkpointEach, old(messages), old(whole), old(executed), synced);
        if stop.Some? {
          return;
        }
      }
      AllDone(calls, old(messages), old(whole), old(executed), synced, checkpointEach);
      return None;
    }

    lemma AllDone(calls: seq<Call>, before: seq<Message>, kept: seq<Message>, logged: seq<Executed>, synced: bool, checkpointEach: bool)
      requires Progress(calls, |calls|, before, kept, logged, synced, checkpointEach)
      ensures kept <= whole && (Tail(before, kept) ==> Tail(messages, whole))
      ensures Valid() && Complete(messages) && before <= messages && |messages| == |before| + |calls|
      ensures Logged(logged, calls, executed) && logged <= executed
      ensures synced ==> Behind(saved, executed, if checkpointEach then 1 else |calls|)
    {
      CompleteIffNothingMissing(messages);
      assert calls[..|calls|] == calls && calls[|calls|..] == [];
    }

    /** Compacts the history in place: what is saved and what is sent stay the same. */
    method Compact(p: Context.Policy) returns (dropped: bool)
      requires Complete(messages)
      modifies this`messages
      ensures Complete(messages)
      ensures CompactsTo(old(messages), p, messages)
      ensures Tail(old(messages), whole) ==> Tail(messages, whole)
      ensures exists n :: Context.CompactedTo(old(messages), fixedTokens, p, Context.CompactionResult(messages, dropped, n))
    {
      var r := Context.CompactMessages(messages, fixedTokens, p);
      Context.CompactionKeeps(messages, fixedTokens, p, r);
      CompactionTail(messages, whole, fixedTokens, p, r);
      assert r == Context.CompactionResult(r.messages, r.compacted, r.droppedCount);
      if r.compacted {
        messages := r.messages;
      }
      return r.compacted;
    }

    /** After an overflow: compaction to half of what was rejected, which drops something whenever
        there is something that may be dropped. */
    method CompactHarder() returns (dropped: bool)
      requires Complete(messages)
      modifies this`messages
      ensures Complete(messages)
      ensures !dropped ==> messages == old(messages)
      ensures CompactsTo(old(messages), EmergencyPolicy(old(messages)), messages)
      ensures Tail(old(messages), whole) ==> Tail(messages, whole)
      ensures !dropped <==> Undroppable(old(messages))
    {
      ghost var before := messages;
      dropped := Compact(EmergencyPolicy(messages));
      ghost var n :| Context.CompactedTo(before, fixedTokens, EmergencyPolicy(before), Context.CompactionResult(messages, dropped, n));
      Context.EmergencyDrops(before, fixedTokens, policy, Context.CompactionResult(messages, dropped, n));
    }

    /** A turn without tool calls: the answer, an end for its sake, or, with nothing returned, a
        request to repair it. */
    method FinalTurn(text: Text, turnCount: nat, repairs: nat, baseline: Option<nat>) returns (end: Option<Outcome>)
      requires Valid() && Complete(messages) && turnCount < maxTurns && Tail(messages, whole)
      modifies this`awaits, this`saved, this`messages, this`whole, this`session
      ensures Valid()
      ensures end.Some? && !end.value.Answer? ==> BrokenOff(end.value)
      ensures end.Some? && end.value.Threw? ==>
        if Accepts(text) then end.value.stop.Flagged? && flagged(text) else end.value.stop.BadOutput? && repairs >= maxRepairs
      ensures end.None? ==>
        && Complete(messages) && !Accepts(text) && repairs < maxRepairs && session == old(session)
        && messages == old(messages) + [Assistant(text, [])] + [User(repairPrompt(text))]
        && Tail(messages, whole) && old(whole) <= whole
      ensures end.None? && persist ==> IsSaved(Running, turnCount + 1, None)
      ensures saved == old(saved) || SavedExecuted(saved) == executed
      ensures end.Some? && end.value.Answer? ==>
        && end.value.text == text && !flagged(text) && Accepts(text)
        && messages == old(messages) + [Assistant(text, [])] && Complete(messages)
        && (persist ==> IsSaved(Done, turnCount, Some(text)))
      ensures baseline.None? ==> session == old(session)
      ensures baseline.Some? && (session != old(session) || (end.Some? && end.value.Answer?)) ==>
        Extended(old(session), baseline.value) && old(whole) <= whole
      ensures Smooth() ==> end != Some(Crashed)
    {
      hide Complete, Ready, Tail, Smooth, SentOk, SavedOk, Honest, Extended;
      CompleteIsReady(messages);
      if !Accepts(text) {
        if repairs >= maxRepairs {
          var alive := SaveCheckpoint(turnCount, Failed, Some(text));
          return Some(if alive then Threw(BadOutput) else Crashed);
        }
        var alive := AskForRepair(text, turnCount);
        return if alive then None else Some(Crashed);
      }
      if flagged(text) {
        var alive := SaveCheckpoint(turnCount, Failed, Some(text));
        return Some(if alive then Threw(Flagged) else Crashed);
      }
      var alive := GiveAnswer(text, turnCount, baseline);
      return Some(if alive then Answer(text) else Crashed);
    }

    /** The answer stays in the history, and a request to repair it follows. */
    method AskForRepair(text: Text, turnCount: nat) returns (alive: bool)
      requires Valid() && Complete(messages) && Tail(messages, whole)
      modifies this`awaits, this`saved, this`messages, this`whole
      ensures Valid() && Complete(messages)
      ensures messages == old(messages) + [Assistant(text, [])] + [User(repairPrompt(text))]
      ensures Tail(messages, whole) && old(whole) <= whole
      ensures if alive && persist then IsSaved(Running, turnCount + 1, None) else saved == old(saved)
      ensures Smooth() ==> alive
    {
      hide Complete, Ready, Tail, Smooth, SentOk, SavedOk, Honest;
      var asked := User(repairPrompt(text));
      PlainMessage(messages, Assistant(text, []));
      PlainMessage(messages + [Assistant(text, [])], asked);
      TailGrows(messages, whole, Assistant(text, []));
      TailGrows(messages + [Assistant(text, [])], whole + [Assistant(text, [])], asked);
      messages, whole := messages + [Assistant(text, [])] + [asked], whole + [Assistant(text, [])] + [asked];
      CompleteIsReady(messages);
      alive := SaveCheckpoint(turnCount + 1, Running, None);
    }

    /** The answer ends the history, which then goes to the session and to the checkpoint. */
    method GiveAnswer(text: Text, turnCount: nat, baseline: Option<nat>) returns (alive: bool)
      requires Valid() && Complete(messages) && Tail(messages, whole)
      modifies this`awaits, this`saved, this`messages, this`whole, this`session
      ensures Valid() && Complete(messages) && messages == old(messages) + [Assistant(text, [])]
      ensures if alive && persist then IsSaved(Done, turnCount, Some(text)) else saved == old(saved)
      ensures baseline.None? ==> session == old(session)
      ensures baseline.Some? && (session != old(session) || alive) ==> Extended(old(session), baseline.value) && old(whole) <= whole
      ensures Smooth() ==> alive
    {
      hide Complete, Ready, Tail, Smooth, SentOk, SavedOk, Honest, Extended;
      PlainMessage(messages, Assistant(text, []));
      TailGrows(messages, whole, Assistant(text, []));
      messages, whole := messages + [Assistant(text, [])], whole + [Assistant(text, [])];
      CompleteIsReady(messages);
      SmoothAt(awaits);
      alive := Await();
      if !alive {
        return;
      }
      if baseline.Some? {
        session := session + messages[Min(baseline.value, |messages|)..];
        SessionExtends(old(session), baseline.value);
      }
      alive := SaveCheckpoint(turnCount, Done, Some(text));
    }

    /** One call of the provider. */
    method Ask() returns (reply: Option<Reply>)
      requires Valid() && Complete(messages)
      modifies this`awaits, this`llmCalls, this`sent
      ensures Valid()
      ensures reply.None? ==> sent == old(sent) && llmCalls == old(llmCalls)
      ensures reply.Some? ==> sent == old(sent) + [messages] && reply.value == llm(old(llmCalls), messages)
      ensures reply.Some? && reply.value.Turn? ==> FreshCalls(reply.value.calls, messages)
      ensures Smooth() ==> reply.Some?
    {
      hide Complete, FreshCalls;
      var alive := Await();
      if !alive {
        return None;
      }
      var answer := llm(llmCalls, messages);
      llmCalls := llmCalls + 1;
      sent := sent + [messages];
      return Some(answer);
    }

    /** Finishes the calls a crash left without a result, before the provider is asked again. */
    method RunPending(startTurn: nat) returns (stop: Option<Outcome>)
      requires Valid() && Ready(messages) && Tail(messages, whole)
      modifies this`awaits, this`saved, this`messages, this`whole, this`executed, this`toolCalls
      ensures Valid() && old(executed) <= executed && RunsFirst(old(executed), old(Missing(messages)), executed)
      ensures stop.None? && persist && old(Missing(messages)) != [] ==> IsSaved(Running, startTurn, None)
      ensures stop.None? ==>
        && Complete(messages) && old(messages) <= messages && |messages| == |old(messages)| + |old(Missing(messages))|
        && Logged(old(executed), old(Missing(messages)), executed)
        && Tail(messages, whole) && old(whole) <= whole
      ensures stop.Some? ==> Interrupted(stop.value)
      ensures persist && old(Behind(saved, executed, 0)) ==>
        Behind(saved, executed, if stop.None? then 0 else |old(Missing(messages))|)
      ensures Smooth() ==> stop.None?
    {
      var pending := PendingToolCalls(messages);
      PendingIffFresh(messages);
      if pending == [] {
        CompleteIffNothingMissing(messages);
        assert executed[..|executed|] == executed;
        return None;
      }
      stop := RunToolCalls(pending, startTurn, None, false);
      if stop.Some? {
        return;
      }
      RunsFirstStays(old(executed), pending, executed, executed);
      hide Complete, Ready, FreshCalls, Missing;
      CompleteIsReady(messages);
      var alive := SaveCheckpoint(startTurn, Running, None);
      return if alive then None else Some(Crashed);
    }

    /** Compaction, and the provider's reply. `Again` is the retry after an overflow. */
    method Consult(contextRetried: bool) returns (step: Step, reply: Reply)
      requires Valid() && Complete(messages) && Tail(messages, whole)
      modifies this`awaits, this`messages, this`llmCalls, this`sent
      ensures Valid() && Complete(messages) && Tail(messages, whole)
      ensures sent == old(sent) || (|sent| == |old(sent)| + 1 && old(sent) <= sent && CompactsTo(old(messages), policy, sent[|old(sent)|]))
      ensures step.Ended? ==> step.out == Crashed || step.out == Threw(Cancelled) || step.out == Threw(ProviderFailed)
      ensures sent != old(sent) ==> reply == llm(old(llmCalls), sent[|old(sent)|])
      ensures reply.Aborted? ==>
        sent != old(sent) && step == Ended(Threw(if cancelled(llmCalls + toolCalls) then Cancelled else ProviderFailed))
      ensures step.Ended? && step.out == Threw(ProviderFailed) ==> sent != old(sent) && EndsWith(|old(sent)|, sent[|old(sent)|], ProviderFailed)
      ensures step.Again? ==> !contextRetried && sent != old(sent) && GoesOn(|old(sent)|, sent[|old(sent)|], messages)
      ensures step.Called? ==>
        reply.Turn? && FreshCalls(reply.calls, messages) && reply == llm(old(llmCalls), messages) && sent == old(sent) + [messages]
      ensures !step.Repaired?
      ensures reply.Overflow? && !contextRetried ==> sent != old(sent) && (step.Ended? <==> Undroppable(sent[|old(sent)|]))
      ensures Smooth() && step.Ended? ==> step.out == Threw(ProviderFailed)
    {
      hide Complete, FreshCalls, Tail, Smooth, CompactsTo, Undroppable, SavedOk, SentOk;
      reply := Error;
      if cancelled(llmCalls + toolCalls) {
        SmoothAt(llmCalls + toolCalls);
        return Ended(Threw(Cancelled)), reply;
      }
      var dropped := Compact(policy);
      var answer := Ask();
      if answer.None? {
        return Ended(Crashed), reply;
      }
      reply := answer.value;
      if reply.Overflow? && !contextRetried {
        dropped := CompactHarder();
        if dropped {
          return Again, reply;
        }
      }
      if reply.Aborted? && cancelled(llmCalls + toolCalls) {
        SmoothAt(llmCalls + toolCalls);
        return Ended(Threw(Cancelled)), reply;
      }
      return if reply.Turn? then Called else Ended(Threw(ProviderFailed)), reply;
    }

    /** What the provider's turn asks for. */
    method UseTurn(n: nat, reply: Reply, turnCount: nat, repairs: nat, baseline: Option<nat>) returns (step: Step)
      requires Valid() && Complete(messages) && Tail(messages, whole) && turnCount < maxTurns
      requires reply.Turn? && FreshCalls(reply.calls, messages) && reply == llm(n, messages)
      modifies this`awaits, this`messages, this`whole, this`executed, this`saved, this`session, this`toolCalls
      ensures Valid() && old(executed) <= executed && !step.Again?
      ensures (step.Called? || step.Repaired?) && persist ==> IsSaved(Running, turnCount + 1, None)
      ensures CutOff(reply.stop) ==> step.Ended? && BrokenOff(step.out) && messages == old(messages) && executed == old(executed)
      ensures !CutOff(reply.stop) && step.Called? ==> Logged(old(executed), reply.calls, executed)
      ensures !step.Ended? ==>
        && Complete(messages) && session == old(session) && GoesOn(n, old(messages), messages)
        && Tail(messages, whole) && old(whole) <= whole
      ensures persist && old(Behind(saved, executed, 0)) ==> Behind(saved, executed, if step.Ended? then 1 else 0)
      ensures step.Ended? ==> if step.out.Answer? then Answered(step.out.text) else BrokenOff(step.out)
      ensures step.Ended? && step.out.Answer? ==>
        messages == old(messages) + [Assistant(step.out.text, [])] && Gives(n, old(messages), step.out.text)
      ensures step.Ended? && step.out.Threw? ==> !step.out.stop.ProviderFailed? && EndsWith(n, old(messages), step.out.stop)
      ensures baseline.None? ==> session == old(session)
      ensures baseline.Some? && (session != old(session) || (step.Ended? && step.out.Answer?)) ==>
        Extended(old(session), baseline.value) && old(whole) <= whole
      ensures Smooth() && step.Ended? ==> step.out != Crashed && step.out != Threw(Refused) && step.out != Threw(Cancelled)
    {
      hide Complete, Ready, FreshCalls, Missing, Tail, Smooth, Extended, SavedOk, SentOk, AnsweredGroup;
      var Turn(text, calls, reason) := reply;
      CompleteIsReady(messages);
      if CutOff(reason) {
        var alive := SaveCheckpoint(turnCount, Failed, text);
        return Ended(if alive then Threw(Truncated) else Crashed);
      }
      var said := TextOr(text);
      if calls == [] {
        var end := FinalTurn(said, turnCount, repairs, baseline);
        return if end.Some? then Ended(end.value) else Repaired;
      }
      step := UseCalls(said, text, calls, turnCount);
    }

    /** A turn with tool calls. */
    method UseCalls(said: Text, text: Option<Text>, calls: seq<Call>, turnCount: nat) returns (step: Step)
      requires Valid() && Complete(messages) && Tail(messages, whole) && FreshCalls(calls, messages)
      modifies this`awaits, this`messages, this`whole, this`executed, this`saved, this`toolCalls
      ensures Valid() && old(executed) <= executed
      ensures step.Called? || (step.Ended? && Interrupted(step.out))
      ensures step.Called? && persist ==> IsSaved(Running, turnCount + 1, None)
      ensures step.Called? ==>
        && Complete(messages) && AnsweredGroup(old(messages), said, calls, messages) && Logged(old(executed), calls, executed)
        && Tail(messages, whole) && old(whole) <= whole
      ensures persist && old(Behind(saved, executed, 0)) ==> Behind(saved, executed, if step.Ended? then 1 else 0)
      ensures Smooth() ==> step.Called?
    {
      hide Complete, Ready, FreshCalls, Missing, Tail, Smooth, SavedOk, SentOk, AnsweredGroup;
      NewGroupReady(messages, said, calls);
      TailGrows(messages, whole, Assistant(said, calls));
      messages, whole := messages + [Assistant(said, calls)], whole + [Assistant(said, calls)];
      var stop := RunToolCalls(calls, turnCount, text, true);
      if stop.Some? {
        return Ended(stop.value);
      }
      GroupIsAnswered(old(messages), said, calls, messages);
      CompleteIsReady(messages);
      var alive := SaveCheckpoint(turnCount + 1, Running, None);
      return if alive then Called else Ended(Crashed);
    }

    /** One turn: the provider's reply, and what it asks for. */
    method TakeTurn(turnCount: nat, repairs: nat, contextRetried: bool, baseline: Option<nat>, ghost start: nat, ghost begun: seq<Message>)
      returns (step: Step)
      requires Valid() && Complete(messages) && Tail(messages, whole) && turnCount < maxTurns && Current(start, begun)
      modifies this
      ensures Valid() && old(executed) <= executed
      ensures old(sent) <= sent && |sent| <= |old(sent)| + 1 && Traced(start, begun)
      ensures persist && old(Behind(saved, executed, 0)) ==> Behind(saved, executed, if step.Ended? then 1 else 0)
      ensures !step.Ended? ==>
        && Complete(messages) && Tail(messages, whole) && old(whole) <= whole && session == old(session)
        && |sent| == |old(sent)| + 1 && Current(start, begun)
      ensures step.Again? ==> !contextRetried
      ensures step.Ended? ==> Explained(start, step.out) && if step.out.Answer? then Answered(step.out.text) else BrokenOff(step.out)
      ensures baseline.None? ==> session == old(session)
      ensures baseline.Some? && (session != old(session) || (step.Ended? && step.out.Answer?)) ==>
        Extended(old(session), baseline.value) && old(whole) <= whole
    {
      hide Complete, Answered, FreshCalls, SentOk, SavedOk, Tail, Extended, Smooth, GoesOn, Gives, EndsWith, CompactsTo, Traced, Current, WasCurrent, Honest;
      CurrentWas(start, begun);
      ghost var before, last := messages, sent;
      var reply;
      step, reply := Consult(contextRetried);
      TraceGrows(start, begun, before, last);
      if step.Called? {
        step := UseTurn(llmCalls - 1, reply, turnCount, repairs, baseline);
      }
      if !step.Ended? {
        NowCurrent(start, begun);
      }
    }

    /** Turn after turn, until an answer or the limit. */
    method TakeTurns(startTurn: nat, baseline: Option<nat>) returns (out: Outcome)
      requires Valid() && Complete(messages) && Tail(messages, whole)
      modifies this
      ensures Valid()
      ensures old(sent) <= sent && |sent| - |old(sent)| <= Max(0, maxTurns - startTurn) + 1
      ensures Traced(|old(sent)|, old(messages)) && Explained(|old(sent)|, out)
      ensures old(executed) <= executed
      ensures persist && old(Behind(saved, executed, 0)) ==> Behind(saved, executed, 1)
      ensures out.Answer? ==> Answered(out.text)
      ensures out == Threw(TooManyTurns) ==>
        && (persist ==> IsSaved(Failed, maxTurns, None))
        && |sent| - |old(sent)| >= maxTurns - startTurn && Current(|old(sent)|, old(messages))
      ensures baseline.None? ==> session == old(session)
      ensures baseline.Some? && (session != old(session) || out.Answer?) ==> Extended(old(session), baseline.value) && old(whole) <= whole
    {
      hide Complete, Ready, Missing, Answered, FreshCalls, SentOk, SavedOk, Tail, Extended, Smooth, GoesOn, Gives, EndsWith, CompactsTo, Traced, Current, WasCurrent, Honest;
      ghost var synced := persist && Behind(saved, executed, 0);
      ghost var start, begun := |sent|, messages;
      NothingSentYet();
      var turnCount: nat, repairs: nat, contextRetried := startTurn, 0, false;
      while turnCount < maxTurns
        invariant Valid() && Complete(messages) && Tail(messages, whole)
        invariant old(sent) <= sent && Current(start, begun)
        invariant |sent| - start == turnCount - startTurn + (if contextRetried then 1 else 0)
        invariant turnCount <= Max(startTurn, maxTurns)
        invariant old(executed) <= executed && old(whole) <= whole
        invariant synced ==> Behind(saved, executed, 0)
        invariant session == old(session)
        decreases !contextRetried, maxTurns - turnCount
      {
        var step := TakeTurn(turnCount, repairs, contextRetried, baseline, start, begun);
        match step {
          case Ended(end) => return end;
          case Again => contextRetried := true;
          case Repaired => turnCount, repairs := turnCount + 1, repairs + 1;
          case Called => turnCount := turnCount + 1;
        }
      }
      assert Traced(start, begun) by { CurrentWas(start, begun); }
      CompleteIsReady(messages);
      var alive := SaveCheckpoint(maxTurns, Failed, None);
      return if alive then Threw(TooManyTurns) else Crashed;
    }

    /** The loop was at `before`, having sent `last`. */
    ghost predicate WasCurrent(start: nat, begun: seq<Message>, before: seq<Message>, last: seq<seq<Message>>)
    {
      && start <= |last|
      && (forall i :: start <= i < |last| - 1 ==> LeadsTo(i, last[i], last[i + 1]))
      && (|last| > start ==> CompactsTo(begun, policy, last[start]))
      && (if |last| == start then before == begun else GoesOn(|last| - 1, last[|last| - 1], before))
    }

    lemma NothingSentYet()
      ensures Current(|sent|, messages) && Traced(|sent|, messages)
    {
    }

    lemma CurrentWas(start: nat, begun: seq<Message>)
      requires Current(start, begun)
      ensures WasCurrent(start, begun, messages, sent) && Traced(start, begun)
    {
    }

    lemma NowCurrent(start: nat, begun: seq<Message>)
      requires Traced(start, begun) && |sent| > start && GoesOn(|sent| - 1, sent[|sent| - 1], messages)
      ensures Current(start, begun)
    {
    }

    lemma TraceGrows(start: nat, begun: seq<Message>, before: seq<Message>, last: seq<seq<Message>>)
      requires WasCurrent(start, begun, before, last)
      requires sent == last || (|sent| == |last| + 1 && last <= sent && CompactsTo(before, policy, sent[|last|]))
      ensures Traced(start, begun)
    {
      hide GoesOn, CompactsTo;
      if sent != last {
        assert forall i :: 0 <= i < |last| ==> sent[i] == last[i];
        if |last| > start {
          assert LeadsTo(|last| - 1, last[|last| - 1], sent[|last|]);
        }
      }
    }

    /** The loop: pending calls first, then turns until an answer. Every history sent is complete, and
        comes of the one before it; every checkpoint saved can be resumed from. */
    method LoopWith(initialMessages: seq<Message>, initialExecuted: seq<Executed>, startTurn: nat, baseline: Option<nat>) returns (out: Outcome)
      requires Valid() && Ready(initialMessages)
      modifies this
      ensures Valid()
      ensures old(sent) <= sent && |sent| - |old(sent)| <= Max(0, maxTurns - startTurn) + 1
      ensures Explained(|old(sent)|, out)
      ensures exists begun ::
        && Continues(initialMessages, begun) && Traced(|old(sent)|, begun)
        && (out == Threw(TooManyTurns) ==> Current(|old(sent)|, begun))
      ensures initialExecuted <= executed && RunsFirst(initialExecuted, Missing(initialMessages), executed)
      ensures persist && Behind(old(saved), initialExecuted, 0) ==>
        Behind(saved, executed, Max(1, |Missing(initialMessages)|))
      ensures out.Answer? ==> Answered(out.text)
      ensures out == Threw(TooManyTurns) ==> |sent| - |old(sent)| >= maxTurns - startTurn
      ensures baseline.None? ==> session == old(session)
      ensures baseline.Some? && (session != old(session) || out.Answer?) ==> Extended(old(session), baseline.value) && initialMessages <= whole
    {
      hide Complete, Ready, Missing, Answered, FreshCalls, SentOk, SavedOk, Extended, Smooth, Traced, Current, Explained, Honest, Logged, RunsFirst, Tail;
      ghost var start := |sent|;
      messages, whole, executed := initialMessages, initialMessages, initialExecuted;
      TailOfItself(initialMessages);
      var stop := RunPending(startTurn);
      if stop.Some? {
        ghost var none := SomeEnd(initialMessages);
        NothingSent(none, stop.value);
        return stop.value;
      }
      ghost var sofar, begun := executed, messages;
      out := TakeTurns(startTurn, baseline);
      RunsFirstStays(initialExecuted, Missing(initialMessages), sofar, executed);
      assert Continues(initialMessages, begun) && Traced(start, begun);
    }

    /** The history with the calls that were missing answered. */
    predicate Continues(initial: seq<Message>, begun: seq<Message>) {
      initial <= begun && |begun| == |initial| + |Missing(initial)|
    }

    lemma NothingSent(begun: seq<Message>, out: Outcome)
      requires Interrupted(out) && !Smooth()
      ensures Traced(|sent|, begun) && Explained(|sent|, out)
    {
    }

    lemma SomeEnd(initial: seq<Message>) returns (begun: seq<Message>)
      ensures Continues(initial, begun)
    {
      begun := initial + seq(|Missing(initial)|, _ => User([]));
    }

    /** A run of its own: the session's history, if there is one, and the input. */
    method Run(input: Text, withSession: bool) returns (out: Outcome)
      requires Valid() && (withSession ==> Complete(session))
      modifies this
      ensures Valid()
      ensures old(sent) <= sent && |sent| - |old(sent)| <= maxTurns + 1
      ensures Traced(|old(sent)|, (if withSession then old(session) else []) + [User(input)]) && Explained(|old(sent)|, out)
      ensures persist && old(saved).None? ==> Behind(saved, executed, 1)
      ensures out.Answer? ==> Answered(out.text)
      ensures out == Threw(TooManyTurns) ==>
        |sent| - |old(sent)| >= maxTurns && Current(|old(sent)|, (if withSession then old(session) else []) + [User(input)])
      ensures !withSession ==> session == old(session)
      ensures withSession && (session != old(session) || out.Answer?) ==>
        Extended(old(session), |old(session)|) && old(session) + [User(input)] <= whole
    {
      hide Complete, Ready, Resumable, Missing, Answered, Traced, Current, Explained, Extended, SentOk, SavedOk, Honest;
      var prior := if withSession then session else [];
      ghost var start := |sent|;
      var initial := prior + [User(input)];
      Asks(prior, input);
      out := LoopWith(initial, [], 0, if withSession then Some(|session|) else None);
      ghost var begun :| Continues(initial, begun) && Traced(start, begun) && (out == Threw(TooManyTurns) ==> Current(start, begun));
      assert begun == initial by { assert |Missing(initial)| == 0; }
    }

    lemma Asks(prior: seq<Message>, input: Text)
      requires prior == [] || Complete(prior)
      ensures Complete([]) && Ready(prior + [User(input)]) && Missing(prior + [User(input)]) == []
    {
      assert Complete([]);
      PlainMessage(prior, User(input));
      CompleteIsReady(prior + [User(input)]);
      CompleteIffNothingMissing(prior + [User(input)]);
    }

    /** Takes a run up again from its last checkpoint: a finished one gives its answer again, and
        any other goes on with what is saved, without a result saved being asked for again. */
    method Resume() returns (found: bool, out: Outcome)
      requires Valid() && persist
      modifies this
      ensures Valid()
      ensures old(sent) <= sent && session == old(session)
      ensures found <==> old(saved).Some?
      ensures found && old(saved).value.status.Done? ==>
        out == Answer(TextOr(old(saved).value.text)) && saved == old(saved) && sent == old(sent)
      ensures found && !old(saved).value.status.Done? ==>
        && old(saved).value.executed <= executed
        && RunsFirst(old(saved).value.executed, Missing(old(saved).value.messages), executed)
        && Behind(saved, executed, Max(1, |Missing(old(saved).value.messages)|))
        && |sent| - |old(sent)| <= Max(0, maxTurns - old(saved).value.turnCount) + 1
        && (out.Answer? ==> Answered(out.text)) && Explained(|old(sent)|, out)
        && exists begun :: Continues(old(saved).value.messages, begun) && Traced(|old(sent)|, begun)
      ensures |sent| - |old(sent)| <= maxTurns + 1
    {
      if saved.None? {
        return false, Crashed;
      }
      var c := saved.value;
      if c.status.Done? {
        return true, Answer(TextOr(c.text));
      }
      hide Complete, Ready, Missing, Answered, Traced, Current, Explained;
      out := LoopWith(c.messages, c.executed, c.turnCount, None);
      return true, out;
    }

    /** An answer was given: it ends the history, passed every check, and is what is saved. */
    predicate Answered(text: Text)
      reads this
    {
      && messages != [] && messages[|messages| - 1] == Assistant(text, []) && Complete(messages)
      && !flagged(text) && Accepts(text)
      && (persist ==> saved.Some? && IsSaved(Done, saved.value.turnCount, Some(text)))
    }
  }

  lemma TailOfItself(ms: seq<Message>)
    ensures Tail(ms, ms)
  {
  }

  // ----- over many processes

  /** A run, in a process set up one way, and its resumptions, each in one set up as it may be. */
  datatype Job = Job(input: Text, withSession: bool, first: Setup, resumptions: seq<Setup>)
  {
    ghost predicate Honest() {
      first.Honest() && forall i :: 0 <= i < |resumptions| ==> resumptions[i].Honest()
    }
  }

  /** How many calls of the provider these can make. */
  function Calls(setups: seq<Setup>): nat {
    if setups == [] then 0 else Calls(setups[..|setups| - 1]) + setups[|setups| - 1].maxTurns + 1
  }

  function CallsOfAll(jobs: seq<Job>): nat {
    if jobs == [] then 0
    else CallsOfAll(jobs[..|jobs| - 1]) + jobs[|jobs| - 1].first.maxTurns + 1 + Calls(jobs[|jobs| - 1].resumptions)
  }

  /** A session is as it was, or what a run added to it leaves it complete exactly as `SessionHolds` says. */
  ghost predicate Continued(before: seq<Message>, after: seq<Message>) {
    after == before || exists messages, whole :: Added(before, after, |before|, messages, whole)
  }

  /** A run and any number of resumptions, each ending wherever its process dies: whatever happens, no
      provider is ever sent an unanswered call, and every checkpoint can be resumed from. */
  method Lifetime(job: Job, prior: seq<Message>) returns (out: Outcome, session: seq<Message>, saved: Option<Checkpoint>, ghost sent: seq<seq<Message>>)
    requires job.Honest() && (job.withSession ==> Complete(prior))
    ensures SentOk(sent) && SavedOk(saved) && |sent| <= job.first.maxTurns + 1 + Calls(job.resumptions)
    ensures Continued(prior, session) && prior <= session && (!job.withSession ==> session == prior)
  {
    hide Complete, Ready, Missing, Agent.Answered, Agent.Traced, Agent.Current, Agent.Explained, SentOk, SavedOk, Added, Setup.Honest;
    NothingYet();
    var agent := new Agent(job.first, true, None, prior);
    SameHonesty(agent, job.first);
    hide Agent.Honest;
    out := agent.Run(job.input, job.withSession);
    session, saved, sent := agent.session, agent.saved, agent.sent;
    if session != prior { AddedAfter(prior, session, agent.messages, agent.whole); }
    for i := 0 to |job.resumptions|
      invariant SentOk(sent) && SavedOk(saved) && |sent| <= job.first.maxTurns + 1 + Calls(job.resumptions[..i])
    {
      assert job.resumptions[..i + 1][..i] == job.resumptions[..i];
      var next := new Agent(job.resumptions[i], true, saved, session);
      SameHonesty(next, job.resumptions[i]);
      var found, answer := next.Resume();
      if found {
        out := answer;
      }
      SentAgain(sent, next.sent);
      saved, sent := next.saved, sent + next.sent;
    }
    assert job.resumptions[..|job.resumptions|] == job.resumptions;
  }

  /** Job after job on one session, each with a checkpoint of its own, until one finds a session that
      a run before it left incomplete. */
  method Lifetimes(jobs: seq<Job>, prior: seq<Message>) returns (k: nat, session: seq<Message>, ghost sent: seq<seq<Message>>)
    requires (forall i :: 0 <= i < |jobs| ==> jobs[i].Honest()) && Complete(prior)
    ensures k <= |jobs| && (k < |jobs| ==> jobs[k].withSession && !Complete(session))
    ensures SentOk(sent) && |sent| <= CallsOfAll(jobs[..k]) && prior <= session
  {
    hide Complete, SentOk, SavedOk, Setup.Honest, Job.Honest, Continued, Calls;
    NothingYet();
    k, session, sent := 0, prior, [];
    while k < |jobs| && (!jobs[k].withSession || Complete(session))
      invariant k <= |jobs| && SentOk(sent) && |sent| <= CallsOfAll(jobs[..k]) && prior <= session
    {
      assert jobs[..k + 1][..k] == jobs[..k];
      ghost var sofar := sent;
      var out, saved;
      ghost var more;
      out, session, saved, more := Lifetime(jobs[k], session);
      SentAgain(sofar, more);
      sent := sofar + more;
      k := k + 1;
    }
  }

  lemma NothingYet()
    ensures SentOk([]) && SavedOk(None)
  {
  }

  lemma AddedAfter(before: seq<Message>, after: seq<Message>, messages: seq<Message>, whole: seq<Message>)
    requires Added(before, after, |before|, messages, whole)
    ensures before <= after && Continued(before, after)
  {
    hide Complete, Tail;
  }

  lemma SameHonesty(agent: Agent, setup: Setup)
    requires agent.llm == setup.llm && setup.Honest()
    ensures agent.Honest()
  {
    hide FreshCalls;
  }

  lemma SentAgain(a: seq<seq<Message>>, b: seq<seq<Message>>)
    requires SentOk(a) && SentOk(b)
    ensures SentOk(a + b)
  {
    hide Complete;
  }

  /** A message more, whatever was dropped before. */
  lemma TailGrows(messages: seq<Message>, whole: seq<Message>, m: Message)
    ensures Tail(messages, whole) ==> Tail(messages + [m], whole + [m])
  {
  }

  lemma CompactionTail(ms: seq<Message>, whole: seq<Message>, fixedTokens: nat, p: Context.Policy, r: Context.CompactionResult)
    requires Context.CompactedTo(ms, fixedTokens, p, r)
    ensures Tail(ms, whole) ==> Tail(r.messages, whole)
  {
    hide Context.BestCut, Context.Tokens;
  }

  /** A complete history that goes on with an assistant message, and is complete again. */
  lemma GroupIsAnswered(h: seq<Message>, said: Text, calls: seq<Call>, m: seq<Message>)
    requires Complete(h) && Complete(m) && h + [Assistant(said, calls)] <= m && |m| == |h| + 1 + |calls|
    ensures AnsweredGroup(h, said, calls, m)
  {
    hide Complete, Resumable, Missing, Answers;
    var rest := m[|h|..];
    assert m == h + rest;
    AfterComplete(h, rest);
    WholeGroup(rest);
    assert rest[0] == Assistant(said, calls) && rest[1..1 + |calls|] == m[|h| + 1..];
  }

  lemma NewGroupReady(ms: seq<Message>, said: Text, calls: seq<Call>)
    requires Complete(ms) && FreshCalls(calls, ms)
    ensures Ready(ms + [Assistant(said, calls)]) && Missing(ms + [Assistant(said, calls)]) == calls
  {
    NewGroup(ms, said, calls);
    hide Complete, Resumable, Missing;
    var after := ms + [Assistant(said, calls)];
    forall i | 0 <= i < |calls| ensures !AnsweredIn(calls[i].id, after) {
      assert !AnsweredIn(calls[i].id, ms);
    }
  }

  function TextOr(text: Option<Text>): Text {
    if text.Some? then text.value else []
  }

  lemma CompleteIsReady(ms: seq<Message>)
    requires Complete(ms)
    ensures Ready(ms)
  {
    CompleteIffNothingMissing(ms);
  }

  /** The result of the next missing call leaves a history that is ready to resume from. */
  lemma NextResultReady(ms: seq<Message>, output: Json.Json)
    requires Ready(ms) && Missing(ms) != []
    ensures var call := Missing(ms)[0];
      var after := ms + [ToolResult(call.id, call.name, output)];
      Ready(after) && Missing(after) == Missing(ms)[1..]
  {
    NextResult(ms, output);
    hide Missing, Resumable;
    var missing := Missing(ms);
    var r := ToolResult(missing[0].id, missing[0].name, output);
    forall i | 0 <= i < |missing[1..]| ensures !AnsweredIn(missing[1..][i].id, ms + [r]) {
      assert missing[1..][i] == missing[i + 1];
      assert !AnsweredIn(missing[i + 1].id, ms);
    }
  }
}
