/** Compaction: which of the oldest messages are dropped to fit a token budget. */
module Context {
  import opened Wrappers
  import opened Numbers
  import opened Texts
  import opened Conversation
  import Json

  const DEFAULT_RESERVE_TOKENS := 1024
  const DEFAULT_KEEP_RECENT := 6

  /** "[earlier conversation, summarized]". */
  const SUMMARY_PREFIX: Text := [
    91, 101, 97, 114, 108, 105, 101, 114, 32, 99, 111, 110, 118, 101, 114, 115, 97, 116, 105, 111, 110, 44, 32,
    115, 117, 109, 109, 97, 114, 105, 122, 101, 100, 93]

  datatype Policy = Policy(
    maxInputTokens: Option<int>,
    reserveTokens: Option<int>,
    keepRecentMessages: Option<int>,
    summarize: Option<seq<Message> -> Text>)
  {
    function Reserve(): int {
      if reserveTokens.Some? then reserveTokens.value else DEFAULT_RESERVE_TOKENS
    }

    function KeepRecent(): int {
      if keepRecentMessages.Some? then keepRecentMessages.value else DEFAULT_KEEP_RECENT
    }
  }

  // ----- estimates

  function EstimateTokens(t: Text): nat {
    (|t| + 3) / 4
  }

  function EstimateJson(v: Json.Json): nat {
    EstimateTokens(Json.Stringify(if v.Undef? then Json.Null else v))
  }

  function EstimateCalls(calls: seq<Call>): nat {
    if calls == [] then 0
    else EstimateTokens(calls[0].name) + EstimateJson(calls[0].input) + EstimateCalls(calls[1..])
  }

  function EstimateMessage(m: Message): (n: nat)
    ensures n >= 4
  {
    match m
    case User(text) => EstimateTokens(text) + 4
    case Assistant(said, calls) => EstimateTokens(said) + EstimateCalls(calls) + 4
    case ToolResult(_, name, output) => EstimateTokens(name) + EstimateJson(output) + 4
  }

  /** The estimate for a whole history. */
  function Tokens(ms: seq<Message>): nat {
    if ms == [] then 0 else EstimateMessage(ms[0]) + Tokens(ms[1..])
  }

  lemma {:induction false} TokensDrop(ms: seq<Message>, k: nat)
    requires k <= |ms|
    ensures Tokens(ms[k..]) + 4 * k <= Tokens(ms)
  {
    if k == 0 {
      assert ms[0..] == ms;
    } else {
      TokensDrop(ms[1..], k - 1);
      assert ms[1..][k - 1..] == ms[k..];
    }
  }

  // ----- cut points

  /** Where a cut may go: before a message that is no tool result, outside the protected tail. */
  predicate MayCut(ms: seq<Message>, keepRecent: int, k: int) {
    0 <= k < |ms| && !ms[k].ToolResult? && k < Max(0, |ms| - keepRecent)
  }

  /** The indices at which a group starts. */
  method GroupBoundaries(ms: seq<Message>) returns (starts: seq<nat>)
    ensures forall i, j :: 0 <= i < j < |starts| ==> starts[i] < starts[j]
    ensures forall k :: k in starts <==> 0 <= k < |ms| && !ms[k].ToolResult?
  {
    starts := [];
    for i := 0 to |ms|
      invariant forall j :: 0 <= j < |starts| ==> starts[j] < i
      invariant forall j, k :: 0 <= j < k < |starts| ==> starts[j] < starts[k]
      invariant forall k :: k in starts <==> 0 <= k < i && !ms[k].ToolResult?
    {
      if ms[i].ToolResult? {
        continue;
      }
      starts := starts + [i];
    }
  }

  /** What is left from message `k` on fits the budget. */
  predicate Fits(ms: seq<Message>, budget: int, k: nat) {
    k <= |ms| && Tokens(ms[k..]) <= budget
  }

  /** The least permitted cut whose rest fits the budget; if none fits, the deepest one; 0 if there
      is none but 0. */
  ghost predicate BestCut(ms: seq<Message>, budget: int, keepRecent: int, cut: nat) {
    && cut <= |ms|
    && (cut == 0 || MayCut(ms, keepRecent, cut))
    && (forall k :: 0 < k < cut && MayCut(ms, keepRecent, k) ==> !Fits(ms, budget, k))
    && (forall k :: k > cut && MayCut(ms, keepRecent, k) ==> cut > 0 && Fits(ms, budget, cut))
  }

  datatype CompactionResult = CompactionResult(messages: seq<Message>, compacted: bool, droppedCount: nat)

  function BudgetOf(fixedTokens: int, policy: Policy): int
    requires policy.maxInputTokens.Some?
  {
    policy.maxInputTokens.value - policy.Reserve() - fixedTokens
  }

  function Kept(ms: seq<Message>, cut: nat, policy: Policy): seq<Message>
    requires cut <= |ms|
  {
    (if policy.summarize.None? then [] else [User(SUMMARY_PREFIX + [NEWLINE] + policy.summarize.value(ms[..cut]))]) + ms[cut..]
  }

  /** What compaction comes to: nothing, while there is no budget, the history fits it, or there is
      nothing to drop; otherwise the messages from the best cut on, after a summary of the rest. */
  ghost predicate CompactedTo(ms: seq<Message>, fixedTokens: int, policy: Policy, r: CompactionResult) {
    if policy.maxInputTokens.None? || Tokens(ms) <= BudgetOf(fixedTokens, policy) || BestCut(ms, BudgetOf(fixedTokens, policy), policy.KeepRecent(), 0) then
      r == CompactionResult(ms, false, 0)
    else
      && r.compacted && 0 < r.droppedCount <= |ms|
      && BestCut(ms, BudgetOf(fixedTokens, policy), policy.KeepRecent(), r.droppedCount)
      && r.messages == Kept(ms, r.droppedCount, policy)
  }

  function Permitted(starts: seq<nat>, limit: int): (r: seq<nat>)
    ensures forall k :: k in r <==> k in starts && k < limit
  {
    if starts == [] then []
    else if starts[0] < limit then [starts[0]] + Permitted(starts[1..], limit)
    else Permitted(starts[1..], limit)
  }

  predicate Increasing(s: seq<nat>) {
    forall i, j :: 0 <= i < j < |s| ==> s[i] < s[j]
  }

  lemma {:induction false} PermittedIncreasing(starts: seq<nat>, limit: int)
    requires Increasing(starts)
    ensures Increasing(Permitted(starts, limit))
  {
    if starts != [] {
      PermittedIncreasing(starts[1..], limit);
      var r := Permitted(starts[1..], limit);
      forall j | 0 <= j < |r| ensures starts[0] < r[j] {
        assert r[j] in starts[1..];
      }
    }
  }

  /** Walks the permitted cuts from the oldest on, until the rest fits. */
  method ChooseCut(ms: seq<Message>, budget: int, keepRecent: int) returns (cut: nat)
    requires Tokens(ms) > budget
    ensures BestCut(ms, budget, keepRecent, cut)
  {
    var boundaries := GroupBoundaries(ms);
    var starts := Permitted(boundaries, Max(0, |ms| - keepRecent));
    assert Increasing(starts) by { PermittedIncreasing(boundaries, Max(0, |ms| - keepRecent)); }
    assert forall k: nat :: k in starts <==> MayCut(ms, keepRecent, k);
    hide Tokens, Permitted;
    cut := 0;
    var i := 0;
    while i < |starts|
      invariant i <= |starts| && cut <= |ms|
      invariant cut == if i == 0 then 0 else starts[i - 1]
      invariant forall j :: 0 <= j < i ==> !Fits(ms, budget, starts[j])
    {
      cut := starts[i];
      assert cut in starts;
      if Tokens(ms[cut..]) <= budget {
        break;
      }
      i := i + 1;
    }
    BestCutFound(ms, budget, keepRecent, starts, i, cut);
  }

  lemma BestCutFound(ms: seq<Message>, budget: int, keepRecent: int, starts: seq<nat>, i: nat, cut: nat)
    requires Tokens(ms) > budget && i <= |starts| && cut <= |ms| && Increasing(starts)
    requires forall k: nat :: k in starts <==> MayCut(ms, keepRecent, k)
    requires forall j :: 0 <= j < i ==> !Fits(ms, budget, starts[j])
    requires i < |starts| ==> cut == starts[i] && Fits(ms, budget, cut)
    requires i == |starts| ==> cut == if i == 0 then 0 else starts[i - 1]
    ensures BestCut(ms, budget, keepRecent, cut)
  {
    hide Tokens, MayCut;
    assert ms[0..] == ms && !Fits(ms, budget, 0);
    assert cut > 0 ==> cut in starts;
    forall k: nat | MayCut(ms, keepRecent, k) && 0 < k < cut ensures !Fits(ms, budget, k) {
      var j :| 0 <= j < |starts| && starts[j] == k;
    }
    forall k: nat | MayCut(ms, keepRecent, k) && k > cut ensures cut > 0 && Fits(ms, budget, cut) {
      var j :| 0 <= j < |starts| && starts[j] == k;
    }
    assert forall k: int | MayCut(ms, keepRecent, k) :: 0 <= k < |ms| by { CutsInside(ms, keepRecent); }
  }

  lemma CutsInside(ms: seq<Message>, keepRecent: int)
    ensures forall k | MayCut(ms, keepRecent, k) :: 0 <= k < |ms|
  {
  }

  /** Drops the oldest groups until the rest fits the budget. */
  method CompactMessages(ms: seq<Message>, fixedTokens: int, policy: Policy) returns (r: CompactionResult)
    ensures CompactedTo(ms, fixedTokens, policy, r)
  {
    if policy.maxInputTokens.None? {
      return CompactionResult(ms, false, 0);
    }
    var budget := BudgetOf(fixedTokens, policy);
    if Tokens(ms) <= budget {
      return CompactionResult(ms, false, 0);
    }
    var cut := ChooseCut(ms, budget, policy.KeepRecent());
    if cut == 0 {
      return CompactionResult(ms, false, 0);
    }
    if BestCut(ms, budget, policy.KeepRecent(), 0) {
      BestCutUnique(ms, budget, policy.KeepRecent(), 0, cut);
    }
    r := CompactionResult(Kept(ms, cut, policy), true, cut);
  }

  /** There is one best cut. */
  lemma BestCutUnique(ms: seq<Message>, budget: int, keepRecent: int, a: nat, b: nat)
    requires BestCut(ms, budget, keepRecent, a) && BestCut(ms, budget, keepRecent, b)
    ensures a == b
  {
    hide Tokens;
  }

  // ----- what compaction keeps

  /** The protected tail is never dropped, and a complete history stays complete. */
  lemma CompactionKeeps(ms: seq<Message>, fixedTokens: int, policy: Policy, r: CompactionResult)
    requires CompactedTo(ms, fixedTokens, policy, r)
    ensures r.compacted ==>
      r.droppedCount <= |ms| && |ms| - r.droppedCount > policy.KeepRecent() && ms[r.droppedCount..] == r.messages[|r.messages| - (|ms| - r.droppedCount)..]
    ensures Complete(ms) ==> Complete(r.messages)
  {
    hide Tokens;
    if r.compacted {
      var rest := ms[r.droppedCount..];
      if Complete(ms) {
        CutKeepsComplete(ms, r.droppedCount);
        if policy.summarize.Some? {
          var summary := r.messages[0];
          assert r.messages == [summary] + rest && r.messages[1..] == rest;
        } else {
          assert r.messages == rest;
        }
      }
    }
  }

  /** If some permitted cut fits, the result, but for a summary, fits; and as few messages are
      dropped as possible. Otherwise as many as permitted. */
  lemma CompactionFits(ms: seq<Message>, fixedTokens: int, policy: Policy, r: CompactionResult, k: nat)
    requires CompactedTo(ms, fixedTokens, policy, r) && policy.maxInputTokens.Some?
    requires Tokens(ms) > BudgetOf(fixedTokens, policy) && k > 0 && MayCut(ms, policy.KeepRecent(), k)
    ensures r.compacted
    ensures Tokens(ms[k..]) <= BudgetOf(fixedTokens, policy) ==>
      r.droppedCount <= k && Tokens(ms[r.droppedCount..]) <= BudgetOf(fixedTokens, policy)
    ensures Tokens(ms[r.droppedCount..]) > BudgetOf(fixedTokens, policy) ==> k <= r.droppedCount
  {
    var n := r.droppedCount;
    if r.compacted && k < n && Tokens(ms[n..]) > BudgetOf(fixedTokens, policy) {
      assert ms[k..][n - k..] == ms[n..];
    } else if r.compacted && k == n {
      TokensDrop(ms, k);
    }
  }

  lemma CutFurther(ms: seq<Message>, keepRecent: int, n: nat, k: int)
    requires n <= |ms| && MayCut(ms[n..], keepRecent, k)
    ensures MayCut(ms, keepRecent, n + k)
  {
  }

  /** After a deepest cut that does not fit, none is left. */
  lemma NoMoreCuts(ms: seq<Message>, budget: int, keepRecent: int, n: nat)
    requires BestCut(ms, budget, keepRecent, n) && !Fits(ms, budget, n) && n <= |ms|
    ensures BestCut(ms[n..], budget, keepRecent, 0)
  {
    hide Fits, MayCut;
    forall k | MayCut(ms[n..], keepRecent, k) ensures k <= 0 {
      CutFurther(ms, keepRecent, n, k);
    }
  }

  /** Without a summarizer, compacting the result again changes nothing. */
  lemma CompactionIsIdempotent(ms: seq<Message>, fixedTokens: int, policy: Policy, r: CompactionResult, again: CompactionResult)
    requires CompactedTo(ms, fixedTokens, policy, r) && CompactedTo(r.messages, fixedTokens, policy, again)
    requires policy.summarize.None?
    ensures again == CompactionResult(r.messages, false, 0)
  {
    hide Tokens;
    if r.compacted {
      var n, keep := r.droppedCount, policy.KeepRecent();
      assert r.messages == ms[n..];
      if Tokens(ms[n..]) > BudgetOf(fixedTokens, policy) {
        hide CompactedTo;
        NoMoreCuts(ms, BudgetOf(fixedTokens, policy), keep, n);
      }
    }
  }

  // ----- after a provider's overflow

  function EmergencyBudget(ms: seq<Message>, fixedTokens: nat): nat {
    (Tokens(ms) + fixedTokens) / 2
  }

  function EmergencyPolicy(ms: seq<Message>, fixedTokens: nat, policy: Policy): (p: Policy)
    ensures p.maxInputTokens.Some? && p.KeepRecent() == policy.KeepRecent()
  {
    policy.(maxInputTokens := Some(EmergencyBudget(ms, fixedTokens)))
  }

  /** What was rejected exceeds the emergency budget. */
  predicate OverEmergency(ms: seq<Message>, fixedTokens: nat, policy: Policy) {
    Tokens(ms) > BudgetOf(fixedTokens, EmergencyPolicy(ms, fixedTokens, policy))
  }

  /** The retry drops something exactly when there is something it may drop and what was rejected
      exceeds the emergency budget; it always does, unless the reserve is negative. */
  lemma EmergencyDrops(ms: seq<Message>, fixedTokens: nat, policy: Policy, r: CompactionResult)
    requires CompactedTo(ms, fixedTokens, EmergencyPolicy(ms, fixedTokens, policy), r)
    ensures r.compacted <==> OverEmergency(ms, fixedTokens, policy) && exists k :: k > 0 && MayCut(ms, policy.KeepRecent(), k)
    ensures ms != [] && policy.Reserve() >= 0 ==> OverEmergency(ms, fixedTokens, policy)
  {
    var p := EmergencyPolicy(ms, fixedTokens, policy);
    assert ms != [] ==> EstimateMessage(ms[0]) >= 4;
    assert ms != [] && policy.Reserve() >= 0 ==> Tokens(ms) > BudgetOf(fixedTokens, p);
    hide Tokens;
    if r.compacted {
      assert MayCut(ms, policy.KeepRecent(), r.droppedCount);
    }
  }
}
