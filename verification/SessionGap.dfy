/** What the condition on a session is for: a run whose history was compacted can leave its session
    with a result that answers no call. */
module SessionGap {
  import opened Wrappers
  import opened Texts
  import opened Conversation
  import opened Agents
  import Context
  import Json

  /** One call and then an answer, whatever the history. */
  function Provider(call: Call, text: Text): (nat, seq<Message>) -> Reply {
    (n, h) => if n == 0 && FreshCalls([call], h) then Turn(None, [call], ToolCalls) else Turn(Some(text), [], End)
  }

  /** Two protected messages, and a limit nothing fits. */
  const TIGHT: Context.Policy := Context.Policy(Some(0), None, Some(2), None)

  /** What an earlier run left: a question and its answer. */
  const PRIOR: seq<Message> := [User([]), Assistant([], [])]

  lemma NeverFits(ms: seq<Message>, fixedTokens: nat, k: nat)
    ensures !Context.Fits(ms, Context.BudgetOf(fixedTokens, TIGHT), k)
  {
  }

  lemma Untouched(ms: seq<Message>, fixedTokens: nat, r: Context.CompactionResult)
    requires |ms| == 3 && Context.CompactedTo(ms, fixedTokens, TIGHT, r)
    ensures r.messages == ms
  {
    hide Context.Tokens;
    assert Context.BestCut(ms, Context.BudgetOf(fixedTokens, TIGHT), 2, 0);
  }

  lemma CutInTwo(ms: seq<Message>, fixedTokens: nat, r: Context.CompactionResult)
    requires |ms| == 5 && Context.CompactedTo(ms, fixedTokens, TIGHT, r)
    requires forall k :: 0 <= k < 3 ==> !ms[k].ToolResult?
    ensures r.messages == ms[2..]
  {
    var budget := Context.BudgetOf(fixedTokens, TIGHT);
    forall k: nat ensures !Context.Fits(ms, budget, k) { NeverFits(ms, fixedTokens, k); }
    hide Context.Tokens;
    assert Context.MayCut(ms, 2, 1);
    assert Context.BestCut(ms, budget, 2, 2);
    Context.BestCutUnique(ms, budget, 2, 2, r.droppedCount);
  }

  /** The agent of the example, as its constructor leaves it. */
  ghost predicate Configured(a: Agent, call: Call, text: Text) {
    && a.llm == Provider(call, text) && a.policy == TIGHT && a.maxTurns == 2 && a.schema.None?
    && !a.flagged(text)
  }

  lemma NoResults(input: Text, call: Call)
    ensures FreshCalls([call], PRIOR + [User(input)])
  {
  }

  /** What is sent the first time, and what it leads to. */
  lemma FirstSent(a: Agent, call: Call, text: Text, input: Text, h: seq<Message>)
    requires Configured(a, call, text) && a.CompactsTo(PRIOR + [User(input)], a.policy, h)
    ensures h == PRIOR + [User(input)] && a.llm(0, h) == Turn(None, [call], ToolCalls)
  {
    var dropped, n :| Context.CompactedTo(PRIOR + [User(input)], a.fixedTokens, a.policy, Context.CompactionResult(h, dropped, n));
    Untouched(PRIOR + [User(input)], a.fixedTokens, Context.CompactionResult(h, dropped, n));
    NoResults(input, call);
    hide FreshCalls, Context.CompactedTo;
  }

  lemma SecondSent(a: Agent, call: Call, text: Text, input: Text, h: seq<Message>)
    requires Configured(a, call, text) && a.LeadsTo(0, PRIOR + [User(input)], h)
    ensures |h| == 3 && h[0] == User(input) && h[2].ToolResult? && h[2].id == call.id
  {
    var begun := PRIOR + [User(input)];
    NoResults(input, call);
    hide FreshCalls, Context.CompactedTo;
    var m :| a.GoesOn(0, begun, m) && a.CompactsTo(m, a.policy, h);
    assert AnsweredGroup(begun, [], [call], m);
    assert m[4..][0] == m[4];
    assert forall k :: 0 <= k < 4 ==> m[k] == (begun + [Assistant([], [call])])[k];
    var dropped, n :| Context.CompactedTo(m, a.fixedTokens, a.policy, Context.CompactionResult(h, dropped, n));
    CutInTwo(m, a.fixedTokens, Context.CompactionResult(h, dropped, n));
  }

  /** From the second call on the provider answers, so no turn follows it. */
  lemma ThenAnswers(a: Agent, call: Call, text: Text, n: nat, h: seq<Message>, m: seq<Message>)
    requires Configured(a, call, text) && n > 0
    ensures a.llm(n, h) == Turn(Some(text), [], End) && !a.GoesOn(n, h, m)
  {
    hide FreshCalls;
  }

  lemma NoneAfter(a: Agent, call: Call, text: Text, n: nat, h: seq<Message>, h': seq<Message>)
    requires Configured(a, call, text) && n > 0
    ensures !a.LeadsTo(n, h, h')
  {
    hide Configured, Agent.GoesOn, Agent.CompactsTo;
    forall m ensures !a.GoesOn(n, h, m) { ThenAnswers(a, call, text, n, h, m); }
  }

  lemma ThirdFollows(a: Agent)
    requires a.Linked(0)
    ensures |a.sent| > 2 ==> a.LeadsTo(1, a.sent[1], a.sent[2])
  {
    hide Agent.LeadsTo;
    if |a.sent| > 2 { assert a.LeadsTo(1, a.sent[1], a.sent[1 + 1]); }
  }

  /** However such a run is traced, it ends with the answer, after its second call. */
  lemma TwoCalls(a: Agent, call: Call, text: Text, input: Text, out: Outcome)
    requires Configured(a, call, text) && a.Smooth()
    requires a.Traced(0, PRIOR + [User(input)]) && a.Explained(0, out)
    requires out == Threw(TooManyTurns) ==> |a.sent| >= 2 && a.Current(0, PRIOR + [User(input)])
    ensures out == Answer(text) && |a.sent| == 2
    ensures a.sent[0] == PRIOR + [User(input)] && a.LeadsTo(0, a.sent[0], a.sent[1])
  {
    var n := |a.sent|;
    if n > 0 { FirstSent(a, call, text, input, a.sent[0]); }
    if n > 1 { assert a.LeadsTo(0, a.sent[0], a.sent[0 + 1]); ThenAnswers(a, call, text, n - 1, a.sent[n - 1], a.messages); }
    forall h, h' ensures !a.LeadsTo(1, h, h') {
      NoneAfter(a, call, text, 1, h, h');
    }
    ThirdFollows(a);
    hide FreshCalls, Agent.GoesOn, Agent.CompactsTo, Agent.LeadsTo, Agent.Smooth;
  }

  lemma Unanswerable(r: Message, answer: Message)
    requires r.ToolResult?
    ensures !Complete(PRIOR + [r, answer])
  {
    PriorComplete();
    AfterComplete(PRIOR, [r, answer]);
  }

  /** A question and its answer in the session, then a run of one tool call and an answer: nothing
      fails, every history sent is complete, and the session ends up with the result of a call it
      does not have. */
  method ResultWithoutCall(input: Text, call: Call, output: Json.Json, text: Text) returns (session: seq<Message>, out: Outcome)
    ensures Complete(PRIOR) && out == Answer(text)
    ensures |session| == 4 && PRIOR <= session && session[2].ToolResult? && session[2].id == call.id && !Complete(session)
  {
    var setup := Setup({call.name}, 2, None, 0, t => false, TIGHT, 0, t => t, t => t,
      Provider(call, text), n => Returns(output), n => false, n => false);
    var a := new Agent(setup, false, None, PRIOR);
    assert a.Honest() by { hide AnsweredIn; }
    assert a.Smooth() && Configured(a, call, text);
    PriorComplete();
    hide Complete, FreshCalls, Agent.Smooth, Agent.Honest, Agent.Traced, Agent.Current, Agent.Explained, Configured;
    assert a.Valid();
    out := a.Run(input, true);
    TwoCalls(a, call, text, input, out);
    session := a.session;
    Remains(a, call, text, input, out);
  }

  lemma PriorComplete()
    ensures Complete(PRIOR)
  {
    assert PRIOR[1..][1..] == [] && PRIOR[1..][1..1] == [];
  }

  lemma Remains(a: Agent, call: Call, text: Text, input: Text, out: Outcome)
    requires Configured(a, call, text) && out == Answer(text) && a.Explained(0, out) && a.Extended(PRIOR, 2)
    requires |a.sent| == 2 && a.LeadsTo(0, PRIOR + [User(input)], a.sent[1])
    ensures |a.session| == 4 && PRIOR <= a.session && a.session[2].ToolResult? && a.session[2].id == call.id && !Complete(a.session)
  {
    hide Complete, FreshCalls, Agent.LeadsTo, Agent.Smooth, Agent.Gives, Tail, Configured;
    SecondSent(a, call, text, input, a.sent[1]);
    var m := a.sent[1] + [Assistant(text, [])];
    assert a.messages == m && |m| == 4 && m[2..] == [m[2], m[3]];
    Unanswerable(m[2], m[3]);
    assert a.session == PRIOR + [m[2], m[3]];
  }
}
