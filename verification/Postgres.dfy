/** Reading a result through a cursor, a batch at a time, until it ends or the collector is full. */
module Postgres {
  import opened Numbers
  import opened Rows

  const FETCH_ROWS := 50

  /** A server-side cursor over a result. */
  class Cursor {
    const all: seq<Row>
    var at: nat
    /** How many rows were asked for. */
    ghost var asked: nat

    ghost predicate Valid()
      reads this
    {
      at <= |all|
    }

    constructor (all: seq<Row>)
      ensures Valid() && this.all == all && at == 0 && asked == 0
    {
      this.all, at, asked := all, 0, 0;
    }

    /** At most `n` more rows; fewer only at the end. */
    method ReadBatch(n: nat) returns (rows: seq<Row>)
      requires Valid()
      modifies this
      ensures Valid() && asked == old(asked) + n
      ensures at == old(at) + |rows| && rows == all[old(at)..at]
      ensures |rows| == if n <= |all| - old(at) then n else |all| - old(at)
    {
      var end := if n <= |all| - at then at + n else |all|;
      rows := all[at..end];
      at, asked := end, asked + n;
    }
  }

  /** `batch.rows.every((row) => out.add(row))`. */
  method AddEvery(out: Collector, batch: seq<Row>) returns (every: bool)
    requires out.Valid() && !out.truncated
    modifies out
    ensures out.Valid() && every == !out.truncated
    ensures exists n :: 0 <= n <= |batch| && out.offered == old(out.offered) + batch[..n] && (every ==> n == |batch|)
    ensures every ==> |out.rows| == old(|out.rows|) + |batch|
  {
    hide Capped;
    var i := 0;
    assert batch[..0] == [];
    while i < |batch|
      invariant i <= |batch| && out.Valid() && !out.truncated
      invariant out.offered == old(out.offered) + batch[..i] && |out.rows| == old(|out.rows|) + i
    {
      assert batch[..i] + [batch[i]] == batch[..i + 1];
      assert old(out.offered) + batch[..i] + [batch[i]] == old(out.offered) + batch[..i + 1];
      var taken := out.Add(batch[i]);
      i := i + 1;
      if !taken {
        return false;
      }
    }
    return true;
  }

  /** The batched loop keeps what the simple form would keep of the whole result, and never asks for
      more than one row beyond the cap. */
  method Collect(cursor: Cursor, max: nat, shape: Row -> Row) returns (kept: seq<Row>, truncated: bool)
    requires cursor.Valid() && cursor.at == 0 && cursor.asked == 0
    modifies cursor
    ensures Capped(shape, cursor.all, max, kept, truncated)
    ensures cursor.asked <= max + 1
  {
    var out := new Collector(max, shape);
    hide Capped, Size, Shaped;
    ghost var all := cursor.all;
    assert all[..0] == [];
    while true
      invariant fresh(out) && out.Valid() && cursor.Valid() && out.max == max && out.shape == shape
      invariant !out.truncated && out.offered == all[..cursor.at]
      invariant cursor.asked == |out.rows| <= max
      decreases max - |out.rows|
    {
      var want := Min(FETCH_ROWS, max + 1 - |out.rows|);
      ghost var at := cursor.at;
      var batch := cursor.ReadBatch(want);
      var every := AddEvery(out, batch);
      ghost var n :| 0 <= n <= |batch| && out.offered == all[..at] + batch[..n] && (every ==> n == |batch|);
      BatchTaken(all, at, batch, n);
      if out.truncated {
        CappedExtends(shape, all[..at + n], all[at + n..], max, out.rows);
      }
      if !every || |batch| < want {
        break;
      }
      KeptWithinMax(out);
    }
    return out.rows, out.truncated;
  }

  lemma BatchTaken<T>(all: seq<T>, at: nat, batch: seq<T>, n: nat)
    requires at + |batch| <= |all| && batch == all[at..at + |batch|] && n <= |batch|
    ensures all[..at] + batch[..n] == all[..at + n]
    ensures all[..at + n] + all[at + n..] == all && all[..|all|] == all
  {
  }

  lemma KeptWithinMax(out: Collector)
    requires out.Valid() && out.max >= 0
    ensures |out.rows| <= out.max
  {
    hide Size, Shaped;
  }

  /** So both forms give the same rows, and the same word on whether there were more. */
  method CollectBothWays(all: seq<Row>, max: nat, shape: Row -> Row) returns (batched: seq<Row>, batchedCut: bool, simple: seq<Row>, simpleCut: bool)
    ensures batched == simple && batchedCut == simpleCut
    ensures Capped(shape, all, max, batched, batchedCut)
  {
    var cursor := new Cursor(all);
    batched, batchedCut := Collect(cursor, max, shape);
    simple, simpleCut := ShapeRows(all, max, shape);
    CappedUnique(shape, all, max, batched, batchedCut, simple, simpleCut);
  }
}
