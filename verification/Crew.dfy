/** Compositions of agents that save a checkpoint after every step, and what a rerun after a crash
    makes of them. Steps are deterministic; a run crashes, at an awaited call, when its fuel is used
    up, and only the checkpoint is left. */
module Crew {
  import opened Wrappers

  datatype Status = Running | Done

  datatype Checkpoint<S> = Checkpoint(status: Status, completedSteps: nat, state: S)

  datatype Outcome<S> = Returned(state: S) | BadOutput | Crashed

  /** A final text's schema, and the agent that is asked to repair a text that does not match. */
  datatype Schema<!S> = Schema(valid: S -> bool, fix: S -> S, maxAttempts: nat)

  // ----- what an uninterrupted run comes to

  /** The state after `n` steps. */
  function After<S>(step: (nat, S) -> S, input: S, n: nat): S {
    if n == 0 then input else step(n - 1, After(step, input, n - 1))
  }

  /** The text repaired, in at most `n` attempts. */
  function Repaired<S>(schema: Schema<S>, text: S, n: nat): Outcome<S> {
    if schema.valid(text) then Returned(text) else if n == 0 then BadOutput else Repaired(schema, schema.fix(text), n - 1)
  }

  function SequentialResult<S>(step: (nat, S) -> S, steps: nat, schema: Option<Schema<S>>, input: S): Outcome<S> {
    var text := After(step, input, steps);
    if schema.Some? && steps > 0 then Repaired(schema.value, text, schema.value.maxAttempts) else Returned(text)
  }

  /** The condition holds after iteration `i`. */
  predicate Satisfied<S>(step: (nat, S) -> S, until: (S, nat) -> bool, input: S, i: nat) {
    until(After(step, input, i + 1), i)
  }

  /** The iteration after which the loop ends: the first that satisfies `until`, or the last. */
  function EndsAfter<S>(step: (nat, S) -> S, until: (S, nat) -> bool, max: nat, input: S, first: nat): nat
    requires first <= max
    decreases max - first
  {
    if first == max then max
    else if Satisfied(step, until, input, first) then first + 1
    else EndsAfter(step, until, max, input, first + 1)
  }

  function LoopResult<S>(step: (nat, S) -> S, until: (S, nat) -> bool, max: nat, input: S): S {
    After(step, input, EndsAfter(step, until, max, input, 0))
  }

  function Completed<S>(saved: Option<Checkpoint<S>>): nat {
    if saved.Some? then saved.value.completedSteps else 0
  }

  /** A checkpoint records where an uninterrupted run from `input` would be. */
  predicate Faithful<S(==)>(step: (nat, S) -> S, input: S, steps: nat, saved: Option<Checkpoint<S>>) {
    && (saved.Some? ==> 0 < saved.value.completedSteps <= steps)
    && (saved.Some? && saved.value.status.Running? ==> saved.value.state == After(step, input, saved.value.completedSteps))
  }

  class Composition<S(==)> {
    var saved: Option<Checkpoint<S>>
    var fuel: nat
    /** Steps begun, over all runs; repairs are not steps. */
    var executed: nat

    constructor ()
      ensures saved.None? && executed == 0
    {
      saved, fuel, executed := None, 0, 0;
    }

    method Await() returns (alive: bool)
      modifies this`fuel
    {
      if fuel == 0 {
        return false;
      }
      fuel := fuel - 1;
      return true;
    }

    method Save(status: Status, completedSteps: nat, state: S) returns (alive: bool)
      modifies this`fuel, this`saved
      ensures saved == if alive then Some(Checkpoint(status, completedSteps, state)) else old(saved)
    {
      alive := Await();
      if alive {
        saved := Some(Checkpoint(status, completedSteps, state));
      }
    }

    method RunStep(step: (nat, S) -> S, i: nat, state: S) returns (next: Option<S>)
      modifies this`fuel, this`executed
      ensures executed - old(executed) == if next.Some? then 1 else 0
      ensures next.Some? ==> next.value == step(i, state)
    {
      var alive := Await();
      if !alive {
        return None;
      }
      executed := executed + 1;
      return Some(step(i, state));
    }

    method RepairOutput(schema: Schema<S>, text: S) returns (r: Outcome<S>)
      modifies this`fuel
      ensures r.Crashed? || r == Repaired(schema, text, schema.maxAttempts)
    {
      var current, attempts := text, 0;
      while !schema.valid(current) && attempts < schema.maxAttempts
        invariant attempts <= schema.maxAttempts
        invariant Repaired(schema, text, schema.maxAttempts) == Repaired(schema, current, schema.maxAttempts - attempts)
      {
        var alive := Await();
        if !alive {
          return Crashed;
        }
        current := schema.fix(current);
        attempts := attempts + 1;
      }
      return if schema.valid(current) then Returned(current) else BadOutput;
    }

    ghost predicate SequentialOk(step: (nat, S) -> S, steps: nat, schema: Option<Schema<S>>, input: S)
      reads this
    {
      && Faithful(step, input, steps, saved)
      && (saved.Some? && saved.value.status.Done? ==>
            SequentialResult(step, steps, schema, input) == Returned(saved.value.state) && saved.value.completedSteps == steps)
    }

    /** One run of a sequence, from its checkpoint if there is one: it returns what an uninterrupted
        run returns, and begins at most one step more than it saves, if it crashes. */
    method Sequential(step: (nat, S) -> S, steps: nat, schema: Option<Schema<S>>, input: S) returns (r: Outcome<S>)
      requires SequentialOk(step, steps, schema, input)
      modifies this
      ensures SequentialOk(step, steps, schema, input)
      ensures r.Crashed? || r == SequentialResult(step, steps, schema, input)
      ensures executed - old(executed) <= Completed(saved) - Completed(old(saved)) + (if r.Crashed? then 1 else 0)
      ensures Completed(saved) <= steps
    {
      if saved.Some? && saved.value.status.Done? {
        return Returned(saved.value.state);
      }
      var i := if saved.Some? then saved.value.completedSteps else 0;
      var current := if saved.Some? then saved.value.state else input;
      while i < steps
        invariant i <= steps && i == Completed(saved) && current == After(step, input, i)
        invariant SequentialOk(step, steps, schema, input)
        invariant saved.Some? && saved.value.status.Done? ==> i == steps && schema.None?
        invariant executed - old(executed) == Completed(saved) - Completed(old(saved))
      {
        var next := RunStep(step, i, current);
        if next.None? {
          return Crashed;
        }
        current := next.value;
        var alive := Save(if i == steps - 1 && schema.None? then Done else Running, i + 1, current);
        if !alive {
          return Crashed;
        }
        i := i + 1;
      }
      if schema.Some? && steps > 0 {
        var repaired := RepairOutput(schema.value, current);
        if !repaired.Returned? {
          return repaired;
        }
        current := repaired.state;
        var alive := Save(Done, steps, current);
        if !alive {
          return Crashed;
        }
      }
      return Returned(current);
    }

    ghost predicate LoopOk(step: (nat, S) -> S, until: (S, nat) -> bool, max: nat, input: S)
      reads this
    {
      && Faithful(step, input, max, saved)
      && Completed(saved) <= max
      && (saved.Some? && saved.value.status.Done? ==> saved.value.state == LoopResult(step, until, max, input))
      && (saved.None? || saved.value.status.Running? ==> EndsAfter(step, until, max, input, 0) == EndsAfter(step, until, max, input, Completed(saved)))
    }

    /** One run of a loop that feeds an agent its own output. */
    method LoopUntil(step: (nat, S) -> S, until: (S, nat) -> bool, max: nat, input: S) returns (r: Outcome<S>)
      requires LoopOk(step, until, max, input)
      modifies this
      ensures LoopOk(step, until, max, input)
      ensures r.Crashed? || r == Returned(LoopResult(step, until, max, input))
      ensures executed - old(executed) <= Completed(saved) - Completed(old(saved)) + (if r.Crashed? then 1 else 0)
    {
      if saved.Some? && saved.value.status.Done? {
        return Returned(saved.value.state);
      }
      var iteration := if saved.Some? then saved.value.completedSteps else 0;
      var current := if saved.Some? then saved.value.state else input;
      while iteration < max
        invariant iteration <= max && iteration == Completed(saved) && current == After(step, input, iteration)
        invariant LoopOk(step, until, max, input) && (saved.Some? ==> saved.value.status.Running?)
        invariant executed - old(executed) == Completed(saved) - Completed(old(saved))
      {
        var next := RunStep(step, iteration, current);
        if next.None? {
          return Crashed;
        }
        current := next.value;
        var finished := until(current, iteration);
        var alive := Save(if finished then Done else Running, iteration + 1, current);
        if !alive {
          return Crashed;
        }
        if finished {
          return Returned(current);
        }
        iteration := iteration + 1;
      }
      return Returned(current);
    }

    /** One run of a pipeline: each step's update is merged into the state. */
    method Pipeline<U>(updates: (nat, S) -> U, merge: (S, U) -> S, steps: nat, input: S) returns (r: Outcome<S>)
      requires SequentialOk(Merged(updates, merge), steps, None, input)
      modifies this
      ensures SequentialOk(Merged(updates, merge), steps, None, input)
      ensures r.Crashed? || r == Returned(After(Merged(updates, merge), input, steps))
      ensures executed - old(executed) <= Completed(saved) - Completed(old(saved)) + (if r.Crashed? then 1 else 0)
      ensures Completed(saved) <= steps
    {
      if saved.Some? && saved.value.status.Done? {
        return Returned(saved.value.state);
      }
      var i := if saved.Some? then saved.value.completedSteps else 0;
      var state := if saved.Some? then saved.value.state else input;
      while i < steps
        invariant i <= steps && i == Completed(saved) && state == After(Merged(updates, merge), input, i)
        invariant SequentialOk(Merged(updates, merge), steps, None, input)
        invariant saved.Some? && saved.value.status.Done? ==> i == steps
        invariant executed - old(executed) == Completed(saved) - Completed(old(saved))
      {
        var alive := Await();
        if !alive {
          return Crashed;
        }
        executed := executed + 1;
        var update := updates(i, state);
        state := merge(state, update);
        alive := Save(if i == steps - 1 then Done else Running, i + 1, state);
        if !alive {
          return Crashed;
        }
        i := i + 1;
      }
      return Returned(state);
    }

    /** Any number of runs of a sequence, each crashing wherever its fuel ends: the first that does
        not crash returns what one uninterrupted run returns, and no more steps are begun than there
        are, and one for each crash. */
    method SequentialUntilDone(step: (nat, S) -> S, steps: nat, schema: Option<Schema<S>>, input: S, budgets: seq<nat>)
      returns (r: Outcome<S>, crashes: nat)
      requires saved.None? && executed == 0
      modifies this
      ensures r.Crashed? || r == SequentialResult(step, steps, schema, input)
      ensures executed <= steps + crashes && crashes <= |budgets|
      ensures crashes < |budgets| ==> !r.Crashed?
    {
      r, crashes := Crashed, 0;
      while crashes < |budgets|
        invariant SequentialOk(step, steps, schema, input) && Completed(saved) <= steps
        invariant crashes <= |budgets| && executed <= Completed(saved) + crashes && r.Crashed?
      {
        fuel := budgets[crashes];
        r := Sequential(step, steps, schema, input);
        if !r.Crashed? {
          return;
        }
        crashes := crashes + 1;
      }
    }

    method LoopUntilDone(step: (nat, S) -> S, until: (S, nat) -> bool, max: nat, input: S, budgets: seq<nat>)
      returns (r: Outcome<S>, crashes: nat)
      requires saved.None? && executed == 0
      modifies this
      ensures r.Crashed? || r == Returned(LoopResult(step, until, max, input))
      ensures executed <= max + crashes && crashes <= |budgets|
      ensures crashes < |budgets| ==> !r.Crashed?
    {
      r, crashes := Crashed, 0;
      while crashes < |budgets|
        invariant LoopOk(step, until, max, input)
        invariant crashes <= |budgets| && executed <= Completed(saved) + crashes && r.Crashed?
      {
        fuel := budgets[crashes];
        r := LoopUntil(step, until, max, input);
        if !r.Crashed? {
          return;
        }
        crashes := crashes + 1;
      }
    }

    method PipelineUntilDone<U>(updates: (nat, S) -> U, merge: (S, U) -> S, steps: nat, input: S, budgets: seq<nat>)
      returns (r: Outcome<S>, crashes: nat)
      requires saved.None? && executed == 0
      modifies this
      ensures r.Crashed? || r == Returned(After(Merged(updates, merge), input, steps))
      ensures executed <= steps + crashes && crashes <= |budgets|
      ensures crashes < |budgets| ==> !r.Crashed?
    {
      r, crashes := Crashed, 0;
      while crashes < |budgets|
        invariant SequentialOk(Merged(updates, merge), steps, None, input) && Completed(saved) <= steps
        invariant crashes <= |budgets| && executed <= Completed(saved) + crashes && r.Crashed?
      {
        fuel := budgets[crashes];
        r := Pipeline(updates, merge, steps, input);
        if !r.Crashed? {
          return;
        }
        crashes := crashes + 1;
      }
    }
  }

  function Merged<S, U>(updates: (nat, S) -> U, merge: (S, U) -> S): (nat, S) -> S {
    (i: nat, state: S) => merge(state, updates(i, state))
  }

  /** The loop ends where it promises to: no earlier iteration satisfied the condition, and the last
      one did, unless the limit came first. */
  lemma {:induction false} EndsWhereItShould<S>(step: (nat, S) -> S, until: (S, nat) -> bool, max: nat, input: S, start: nat)
    requires start <= max
    ensures var n := EndsAfter(step, until, max, input, start);
      && start <= n <= max
      && (forall i :: start <= i < n - 1 ==> !Satisfied(step, until, input, i))
      && (n < max ==> n > start && Satisfied(step, until, input, n - 1))
      && (start < max ==> n > start)
    decreases max - start
  {
    if start < max && !Satisfied(step, until, input, start) {
      hide Satisfied;
      EndsWhereItShould(step, until, max, input, start + 1);
    }
  }

  function FixTimes<S>(schema: Schema<S>, text: S, k: nat): S {
    if k == 0 then text else FixTimes(schema, schema.fix(text), k - 1)
  }

  predicate ValidAfter<S>(schema: Schema<S>, text: S, k: nat) {
    schema.valid(FixTimes(schema, text, k))
  }

  predicate FirstValid<S>(schema: Schema<S>, text: S, k: nat) {
    ValidAfter(schema, text, k) && forall j :: 0 <= j < k ==> !ValidAfter(schema, text, j)
  }

  /** A repaired text is the first in the line of repairs that matches the schema, and there is none
      exactly when no repair within the limit matches it. */
  lemma {:induction false} RepairedIsFirstValid<S>(schema: Schema<S>, text: S, n: nat)
    ensures var r := Repaired(schema, text, n);
      && !r.Crashed?
      && (r.BadOutput? ==> forall k :: 0 <= k <= n ==> !ValidAfter(schema, text, k))
      && (r.Returned? ==> exists k :: 0 <= k <= n && FirstValid(schema, text, k) && r.state == FixTimes(schema, text, k))
  {
    if schema.valid(text) {
      assert FirstValid(schema, text, 0);
    } else if n > 0 {
      var next := schema.fix(text);
      RepairedIsFirstValid(schema, next, n - 1);
      assert forall k: nat :: ValidAfter(schema, text, k + 1) == ValidAfter(schema, next, k);
      if Repaired(schema, next, n - 1).Returned? {
        var k :| 0 <= k <= n - 1 && FirstValid(schema, next, k) && Repaired(schema, next, n - 1).state == FixTimes(schema, next, k);
        assert ValidAfter(schema, text, k + 1) && FixTimes(schema, text, k + 1) == FixTimes(schema, next, k);
        forall j | 0 <= j < k + 1 ensures !ValidAfter(schema, text, j) {
          if j > 0 { assert ValidAfter(schema, text, j) == ValidAfter(schema, next, j - 1); }
        }
        assert FirstValid(schema, text, k + 1);
      } else {
        forall k | 0 <= k <= n ensures !ValidAfter(schema, text, k) {
          if k > 0 { assert ValidAfter(schema, text, k) == ValidAfter(schema, next, k - 1); }
        }
      }
    }
  }
}
