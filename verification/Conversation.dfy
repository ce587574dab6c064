/** An agent's message history: which ones a provider accepts, and which ones a crash leaves. */
module Conversation {
  import opened Texts
  import Json

  datatype Call = Call(id: Text, name: Text, input: Json.Json)

  datatype Message =
    | User(text: Text)
    | Assistant(said: Text, calls: seq<Call>)
    | ToolResult(id: Text, name: Text, output: Json.Json)

  /** `results` answer `calls`, one for one and in order. */
  predicate Answers(calls: seq<Call>, results: seq<Message>) {
    && |calls| == |results|
    && forall i :: 0 <= i < |calls| ==> results[i].ToolResult? && results[i].id == calls[i].id && results[i].name == calls[i].name
  }

  /** What every provider demands: each assistant message with tool calls is followed by exactly
      their results, in order, and no result stands anywhere else. */
  predicate Complete(ms: seq<Message>) {
    ms == [] ||
    match ms[0]
    case User(_) => Complete(ms[1..])
    case Assistant(_, calls) => |calls| < |ms| && Answers(calls, ms[1..1 + |calls|]) && Complete(ms[1 + |calls|..])
    case ToolResult(_, _, _) => false
  }

  /** What a crash may leave: like a complete history, but for some of the last group's results,
      the last ones. */
  predicate Resumable(ms: seq<Message>) {
    ms == [] ||
    match ms[0]
    case User(_) => Resumable(ms[1..])
    case Assistant(_, calls) =>
      if |calls| < |ms| then Answers(calls, ms[1..1 + |calls|]) && Resumable(ms[1 + |calls|..])
      else Answers(calls[..|ms| - 1], ms[1..])
    case ToolResult(_, _, _) => false
  }

  /** The last group's calls that have no result, in order. */
  function Missing(ms: seq<Message>): seq<Call> {
    if ms == [] then [] else
    match ms[0]
    case Assistant(_, calls) => if |calls| < |ms| then Missing(ms[1 + |calls|..]) else calls[|ms| - 1..]
    case _ => Missing(ms[1..])
  }

  predicate AnsweredIn(id: Text, ms: seq<Message>) {
    exists i :: 0 <= i < |ms| && ms[i].ToolResult? && ms[i].id == id
  }

  /** Calls a provider may make after `ms`: no two with one id, and none with an id answered there. */
  predicate FreshCalls(calls: seq<Call>, ms: seq<Message>) {
    && (forall i, j :: 0 <= i < j < |calls| ==> calls[i].id != calls[j].id)
    && (forall i :: 0 <= i < |calls| ==> !AnsweredIn(calls[i].id, ms))
  }

  // ----- pendingToolCalls

  /** The calls of the most recent assistant message that has any. */
  function LastCalls(ms: seq<Message>): seq<Call> {
    if ms == [] then []
    else
      var m := ms[|ms| - 1];
      if m.Assistant? && m.calls != [] then m.calls else LastCalls(ms[..|ms| - 1])
  }

  function Unanswered(calls: seq<Call>, ms: seq<Message>): seq<Call> {
    if calls == [] then []
    else (if AnsweredIn(calls[0].id, ms) then [] else [calls[0]]) + Unanswered(calls[1..], ms)
  }

  function PendingToolCalls(ms: seq<Message>): seq<Call> {
    Unanswered(LastCalls(ms), ms)
  }

  // ----- histories, put together and taken apart

  lemma {:induction false} CompleteIffNothingMissing(ms: seq<Message>)
    ensures Complete(ms) <==> Resumable(ms) && Missing(ms) == []
  {
    hide Answers;
    if ms != [] {
      if ms[0].Assistant? {
        if |ms[0].calls| < |ms| { CompleteIffNothingMissing(ms[1 + |ms[0].calls|..]); }
      } else {
        CompleteIffNothingMissing(ms[1..]);
      }
    }
  }

  lemma Slices<T>(a: seq<T>, b: seq<T>, n: nat)
    requires 1 <= n <= |a|
    ensures (a + b)[1..n] == a[1..n] && (a + b)[n..] == a[n..] + b && (a + b)[0] == a[0]
  {
  }

  /** What follows a complete history decides about the whole. */
  lemma {:induction false} AfterComplete(a: seq<Message>, b: seq<Message>)
    requires Complete(a)
    ensures Resumable(a + b) == Resumable(b) && Missing(a + b) == Missing(b) && Complete(a + b) == Complete(b)
  {
    hide Answers;
    if a == [] {
      assert a + b == b;
    } else {
      var n := if a[0].Assistant? then 1 + |a[0].calls| else 1;
      AfterComplete(a[n..], b);
      Slices(a, b, n);
    }
  }

  /** The length of the group the first message opens. */
  function GroupSize(m: Message): nat {
    if m.Assistant? then 1 + |m.calls| else 1
  }

  /** The first message opens a group that is whole. */
  predicate StartsWithGroup(ms: seq<Message>) {
    && ms != [] && !ms[0].ToolResult? && GroupSize(ms[0]) <= |ms|
    && (ms[0].Assistant? ==> Answers(ms[0].calls, ms[1..1 + |ms[0].calls|]))
  }

  lemma OneMoreGroup(ms: seq<Message>, k: nat)
    requires StartsWithGroup(ms) && GroupSize(ms[0]) <= k <= |ms| && Complete(ms[GroupSize(ms[0])..k])
    ensures Complete(ms[..k])
  {
    hide Answers;
    var n := GroupSize(ms[0]);
    assert ms[..k][n..] == ms[n..k] && ms[..k][1..n] == ms[1..n];
  }

  lemma SliceOfSlice<T>(s: seq<T>, n: nat, k: nat)
    requires n <= k <= |s|
    ensures s[n..][k - n..] == s[k..] && s[n..][..k - n] == s[n..k]
  {
  }

  /** An assistant message and the first of its results, not all of them. */
  predicate OpenGroup(g: seq<Message>) {
    g != [] && g[0].Assistant? && |g| - 1 < |g[0].calls| && Answers(g[0].calls[..|g| - 1], g[1..])
  }

  lemma SomethingThere(ms: seq<Message>)
    requires Missing(ms) != []
    ensures ms != []
  {
  }

  lemma OpenAtStart(ms: seq<Message>)
    requires ms != [] && Resumable(ms) && ms[0].Assistant? && |ms| <= |ms[0].calls|
    ensures Complete(ms[..0]) && OpenGroup(ms[0..]) && Missing(ms) == ms[0].calls[|ms| - 1..]
  {
    hide Answers;
    assert ms[..0] == [] && ms[0..] == ms;
  }

  lemma GroupsGoOn(ms: seq<Message>)
    requires ms != [] && Resumable(ms) && !(ms[0].Assistant? && |ms| <= |ms[0].calls|)
    ensures var n := GroupSize(ms[0]); StartsWithGroup(ms) && Resumable(ms[n..]) && Missing(ms[n..]) == Missing(ms)
  {
    hide Answers;
  }

  /** A resumable history that lacks something is a complete one, and an open group. */
  lemma {:induction false} LastGroup(ms: seq<Message>) returns (k: nat)
    requires Resumable(ms) && Missing(ms) != []
    ensures k < |ms| && Complete(ms[..k]) && OpenGroup(ms[k..])
    ensures Missing(ms) == ms[k].calls[|ms| - k - 1..]
  {
    hide Answers, Resumable, Missing, Complete, StartsWithGroup, OpenGroup;
    SomethingThere(ms);
    if ms[0].Assistant? && |ms| <= |ms[0].calls| {
      OpenAtStart(ms);
      return 0;
    }
    var n := GroupSize(ms[0]);
    GroupsGoOn(ms);
    var j := LastGroup(ms[n..]);
    k := n + j;
    SliceOfSlice(ms, n, k);
    OneMoreGroup(ms, k);
  }

  lemma OpenGroupLength(g: seq<Message>)
    requires OpenGroup(g)
    ensures g != [] && g[0].Assistant? && |g| - 1 < |g[0].calls|
  {
  }

  lemma SplitBefore<T>(s: seq<T>, k: nat, x: T)
    requires k <= |s|
    ensures s + [x] == s[..k] + (s[k..] + [x])
  {
  }

  /** The next result: one call fewer is missing. */
  lemma NextResult(ms: seq<Message>, output: Json.Json)
    requires Resumable(ms) && Missing(ms) != []
    ensures var after := ms + [ToolResult(Missing(ms)[0].id, Missing(ms)[0].name, output)];
      Resumable(after) && Missing(after) == Missing(ms)[1..]
  {
    var k := LastGroup(ms);
    var r := ToolResult(Missing(ms)[0].id, Missing(ms)[0].name, output);
    hide Resumable, Missing, Complete, Answers, OpenGroup;
    OpenGroupLength(ms[k..]);
    GroupGrows(ms[k..], r);
    SplitBefore(ms, k, r);
    AfterComplete(ms[..k], ms[k..] + [r]);
  }

  lemma GroupGrows(group: seq<Message>, r: Message)
    requires OpenGroup(group)
    requires var call := group[0].calls[|group| - 1]; r.ToolResult? && r.id == call.id && r.name == call.name
    ensures Resumable(group + [r]) && Missing(group + [r]) == group[0].calls[|group| - 1..][1..]
  {
    var n, calls := |group|, group[0].calls;
    var after := group + [r];
    assert after[1..] == group[1..] + [r];
    assert Answers(calls[..n], after[1..]);
    if n == |calls| {
      assert calls[..n] == calls && after[1..1 + n] == after[1..] && after[1 + n..] == [];
      assert Resumable([]);
      assert calls[n - 1..][1..] == [];
    } else {
      assert calls[n - 1..][1..] == calls[n..];
    }
  }

  /** A new assistant message: all its calls are missing. */
  lemma NewGroup(ms: seq<Message>, said: Text, calls: seq<Call>)
    requires Complete(ms)
    ensures var after := ms + [Assistant(said, calls)]; Resumable(after) && Missing(after) == calls
  {
    AfterComplete(ms, [Assistant(said, calls)]);
    var m: seq<Message> := [Assistant(said, calls)];
    assert m[1..] == [] && calls[..0] == [] && calls[0..] == calls;
    assert Resumable([]) && Missing([]) == [];
  }

  /** A message without calls keeps a history complete. */
  lemma PlainMessage(ms: seq<Message>, m: Message)
    requires Complete(ms) && (m.User? || (m.Assistant? && m.calls == []))
    ensures Complete(ms + [m])
  {
    AfterComplete(ms, [m]);
    assert [m][1..] == [] && [m][1..1] == [];
    assert Complete([]);
  }

  lemma ResultsAfter(ms: seq<Message>)
    requires Complete(ms) && ms != [] && ms[0].Assistant?
    ensures forall i :: 1 <= i <= |ms[0].calls| ==> ms[i].ToolResult?
  {
    forall i | 1 <= i <= |ms[0].calls| ensures ms[i].ToolResult? {
      assert ms[1..1 + |ms[0].calls|][i - 1] == ms[i];
    }
  }

  lemma OnlyResultsInGroup(ms: seq<Message>, k: nat)
    requires Complete(ms) && 0 < k < |ms| && !ms[k].ToolResult?
    ensures GroupSize(ms[0]) <= k && Complete(ms[GroupSize(ms[0])..])
  {
    if ms[0].Assistant? {
      ResultsAfter(ms);
    }
  }

  /** A cut before any message that is no result leaves a complete history complete. */
  lemma {:induction false} CutKeepsComplete(ms: seq<Message>, k: nat)
    requires Complete(ms) && k < |ms| && !ms[k].ToolResult?
    ensures Complete(ms[..k]) && Complete(ms[k..])
  {
    if k == 0 {
      assert ms[..0] == [] && ms[0..] == ms;
    } else {
      WholeGroup(ms);
      OnlyResultsInGroup(ms, k);
      hide Complete, StartsWithGroup;
      var n := GroupSize(ms[0]);
      CutKeepsComplete(ms[n..], k - n);
      SliceOfSlice(ms, n, k);
      OneMoreGroup(ms, k);
    }
  }

  lemma WholeGroup(ms: seq<Message>)
    requires Complete(ms) && ms != []
    ensures StartsWithGroup(ms)
  {
    hide Answers;
  }

  /** A slice of a complete history is complete exactly when it does not start with a result. */
  lemma CutCompleteIff(ms: seq<Message>, k: nat)
    requires Complete(ms) && k < |ms|
    ensures Complete(ms[k..]) <==> !ms[k].ToolResult?
  {
    if !ms[k].ToolResult? {
      CutKeepsComplete(ms, k);
    }
  }

  // ----- what pendingToolCalls finds

  lemma {:induction false} UnansweredConcat(a: seq<Call>, b: seq<Call>, ms: seq<Message>)
    ensures Unanswered(a + b, ms) == Unanswered(a, ms) + Unanswered(b, ms)
  {
    hide AnsweredIn;
    if a == [] {
      assert a + b == b;
    } else {
      UnansweredConcat(a[1..], b, ms);
      HeadOfConcat(a, b);
    }
  }

  lemma {:induction false} AllAnswered(calls: seq<Call>, ms: seq<Message>)
    requires forall i :: 0 <= i < |calls| ==> AnsweredIn(calls[i].id, ms)
    ensures Unanswered(calls, ms) == []
  {
    hide AnsweredIn;
    if calls != [] {
      assert forall i :: 0 <= i < |calls[1..]| ==> calls[1..][i] == calls[i + 1];
      AllAnswered(calls[1..], ms);
    }
  }

  lemma {:induction false} AllUnanswered(calls: seq<Call>, ms: seq<Message>)
    ensures |Unanswered(calls, ms)| <= |calls|
    ensures (forall i :: 0 <= i < |calls| ==> !AnsweredIn(calls[i].id, ms)) ==> Unanswered(calls, ms) == calls
    ensures Unanswered(calls, ms) == calls ==> forall i :: 0 <= i < |calls| ==> !AnsweredIn(calls[i].id, ms)
  {
    hide AnsweredIn;
    if calls != [] {
      var tail := calls[1..];
      assert forall i :: 0 <= i < |tail| ==> tail[i] == calls[i + 1];
      AllUnanswered(tail, ms);
      if Unanswered(calls, ms) == calls {
        assert ([calls[0]] + Unanswered(tail, ms))[1..] == Unanswered(tail, ms);
      }
      assert calls == [calls[0]] + tail;
    }
  }

  /** Of a group and its results, only the group has calls. */
  lemma {:induction false} LastCallsOfGroup(ms: seq<Message>, k: nat)
    requires k < |ms| && ms[k].Assistant? && ms[k].calls != []
    requires forall i :: k < i < |ms| ==> ms[i].ToolResult? || (ms[i].Assistant? && ms[i].calls == []) || ms[i].User?
    ensures LastCalls(ms) == ms[k].calls
  {
    if k < |ms| - 1 {
      LastCallsOfGroup(ms[..|ms| - 1], k);
    }
  }

  /** In a complete history every call is answered. */
  lemma {:induction false} CompleteAnswersAll(ms: seq<Message>, k: nat, c: nat)
    requires Complete(ms) && k < |ms| && ms[k].Assistant? && c < |ms[k].calls|
    ensures AnsweredIn(ms[k].calls[c].id, ms)
  {
    var n := if ms[0].Assistant? then 1 + |ms[0].calls| else 1;
    if k == 0 {
      assert ms[1..n][c] == ms[1 + c];
    } else {
      CompleteAnswersAll(ms[n..], k - n, c);
      var i :| 0 <= i < |ms[n..]| && ms[n..][i].ToolResult? && ms[n..][i].id == ms[k].calls[c].id;
      assert ms[n + i].ToolResult? && ms[n + i].id == ms[k].calls[c].id;
    }
  }

  lemma {:induction false} LastCallsAreThere(ms: seq<Message>)
    ensures LastCalls(ms) == [] || exists k :: 0 <= k < |ms| && ms[k].Assistant? && ms[k].calls == LastCalls(ms)
  {
    if ms != [] {
      var m := ms[|ms| - 1];
      if !(m.Assistant? && m.calls != []) {
        LastCallsAreThere(ms[..|ms| - 1]);
        if LastCalls(ms) != [] {
          var k :| 0 <= k < |ms[..|ms| - 1]| && ms[..|ms| - 1][k].Assistant? && ms[..|ms| - 1][k].calls == LastCalls(ms);
          assert ms[k].calls == LastCalls(ms);
        }
      }
    }
  }

  /** A complete history has nothing pending. */
  lemma NothingPending(ms: seq<Message>)
    requires Complete(ms)
    ensures PendingToolCalls(ms) == []
  {
    LastCallsAreThere(ms);
    if LastCalls(ms) != [] {
      var k :| 0 <= k < |ms| && ms[k].Assistant? && ms[k].calls == LastCalls(ms);
      forall c | 0 <= c < |LastCalls(ms)| ensures AnsweredIn(LastCalls(ms)[c].id, ms) {
        CompleteAnswersAll(ms, k, c);
      }
      AllAnswered(LastCalls(ms), ms);
    }
  }

  /** In an open group, what follows the group's message are the results of its first calls. */
  lemma ResultOfCall(ms: seq<Message>, k: nat, i: nat)
    requires k < |ms| && OpenGroup(ms[k..]) && i < |ms| - k - 1
    ensures ms[k].Assistant? && |ms| - k - 1 < |ms[k].calls|
    ensures ms[k + 1 + i].ToolResult? && ms[k + 1 + i].id == ms[k].calls[i].id
  {
    var group := ms[k..];
    assert group[1..][i] == ms[k + 1 + i];
    assert group[0].calls[..|group| - 1][i] == ms[k].calls[i];
  }

  lemma OpenGroupCalls(ms: seq<Message>, k: nat)
    requires k < |ms| && OpenGroup(ms[k..])
    ensures ms[k].Assistant? && |ms| - k - 1 < |ms[k].calls| && LastCalls(ms) == ms[k].calls
    ensures forall i :: 0 <= i < |ms| - k - 1 ==> AnsweredIn(ms[k].calls[i].id, ms)
  {
    hide OpenGroup, LastCalls;
    OpenGroupLength(ms[k..]);
    forall i | k < i < |ms| ensures ms[i].ToolResult? {
      ResultOfCall(ms, k, i - k - 1);
    }
    LastCallsOfGroup(ms, k);
    forall i | 0 <= i < |ms| - k - 1 ensures AnsweredIn(ms[k].calls[i].id, ms) {
      ResultOfCall(ms, k, i);
    }
  }

  /** Of calls whose first n are answered, the rest is what is unanswered exactly when none of it is answered. */
  lemma UnansweredIsRest(calls: seq<Call>, n: nat, rest: seq<Call>, ms: seq<Message>)
    requires n <= |calls| && rest == calls[n..] && forall i :: 0 <= i < n ==> AnsweredIn(calls[i].id, ms)
    ensures Unanswered(calls, ms) == rest <==> forall i :: 0 <= i < |rest| ==> !AnsweredIn(rest[i].id, ms)
  {
    hide AnsweredIn, Unanswered;
    assert calls == calls[..n] + rest;
    UnansweredConcat(calls[..n], rest, ms);
    AllAnswered(calls[..n], ms);
    AllUnanswered(rest, ms);
    assert [] + Unanswered(rest, ms) == Unanswered(rest, ms);
  }

  /** pendingToolCalls finds exactly what is missing, exactly when no missing call has the id of a
      result that is already in the history. */
  lemma PendingIffFresh(ms: seq<Message>)
    requires Resumable(ms)
    ensures PendingToolCalls(ms) == Missing(ms) <==>
      forall i :: 0 <= i < |Missing(ms)| ==> !AnsweredIn(Missing(ms)[i].id, ms)
  {
    hide Resumable, Missing, Complete, OpenGroup, AnsweredIn, Unanswered, LastCalls;
    if Missing(ms) == [] {
      CompleteIffNothingMissing(ms);
      NothingPending(ms);
    } else {
      var k := LastGroup(ms);
      OpenGroupCalls(ms, k);
      UnansweredIsRest(ms[k].calls, |ms| - k - 1, Missing(ms), ms);
    }
  }
}
