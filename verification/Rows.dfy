/** Capping a query's rows by count and by size: the database connectors' Collector and shapeRows. */
module Rows {
  import opened Json

  type Row = Json

  const MAX_RESULT_CHARS := 200_000

  /** What a row costs of the limit: its length as JSON once its cells are shaped. */
  function Cost(shape: Row -> Row, row: Row): nat {
    |Stringify(shape(row))|
  }

  function Size(shape: Row -> Row, rows: seq<Row>): nat {
    if rows == [] then 0 else Size(shape, rows[..|rows| - 1]) + Cost(shape, rows[|rows| - 1])
  }

  function Shaped(shape: Row -> Row, rows: seq<Row>): (r: seq<Row>)
    ensures |r| == |rows|
  {
    if rows == [] then [] else Shaped(shape, rows[..|rows| - 1]) + [shape(rows[|rows| - 1])]
  }

  /** The first `n` rows are within both limits. */
  predicate Fits(shape: Row -> Row, rows: seq<Row>, max: int, n: nat) {
    n <= |rows| && (n == 0 || n <= max) && Size(shape, rows[..n]) <= MAX_RESULT_CHARS
  }

  /** `kept` are as many of `all` from the first on as fit both limits, and `truncated` says whether
      that leaves any out. */
  ghost predicate Capped(shape: Row -> Row, all: seq<Row>, max: int, kept: seq<Row>, truncated: bool) {
    && Fits(shape, all, max, |kept|) && kept == Shaped(shape, all[..|kept|])
    && (truncated <==> |kept| < |all|)
    && (truncated ==> !Fits(shape, all, max, |kept| + 1))
  }

  lemma SizeStep(shape: Row -> Row, rows: seq<Row>, n: nat)
    requires n < |rows|
    ensures Size(shape, rows[..n + 1]) == Size(shape, rows[..n]) + Cost(shape, rows[n])
    ensures Shaped(shape, rows[..n + 1]) == Shaped(shape, rows[..n]) + [shape(rows[n])]
  {
    assert rows[..n + 1][..n] == rows[..n];
  }

  lemma {:induction false} SizeGrows(shape: Row -> Row, rows: seq<Row>, m: nat, n: nat)
    requires m <= n <= |rows|
    ensures Size(shape, rows[..m]) <= Size(shape, rows[..n])
  {
    hide Size, Shaped, Cost;
    if m < n {
      SizeGrows(shape, rows, m, n - 1);
      SizeStep(shape, rows, n - 1);
    }
  }

  /** Limits that more rows break, fewer rows broke already: what fits is a first stretch. */
  lemma FitsDownward(shape: Row -> Row, rows: seq<Row>, max: int, m: nat, n: nat)
    requires m <= n && Fits(shape, rows, max, n)
    ensures Fits(shape, rows, max, m)
  {
    SizeGrows(shape, rows, m, n);
  }

  /** There is one way to cap a result: no more could be kept, and no less. */
  lemma CappedUnique(shape: Row -> Row, all: seq<Row>, max: int, a: seq<Row>, at: bool, b: seq<Row>, bt: bool)
    requires Capped(shape, all, max, a, at) && Capped(shape, all, max, b, bt)
    ensures a == b && at == bt
  {
    if |a| < |b| {
      FitsDownward(shape, all, max, |a| + 1, |b|);
    } else if |b| < |a| {
      FitsDownward(shape, all, max, |b| + 1, |a|);
    }
  }

  /** Rows beyond the first that did not fit change nothing. */
  lemma CappedExtends(shape: Row -> Row, all: seq<Row>, more: seq<Row>, max: int, kept: seq<Row>)
    requires Capped(shape, all, max, kept, true)
    ensures Capped(shape, all + more, max, kept, true)
  {
    var n := |kept|;
    assert (all + more)[..n] == all[..n] && (all + more)[..n + 1] == all[..n + 1];
  }

  class Collector {
    const max: int
    const shape: Row -> Row
    var rows: seq<Row>
    var truncated: bool
    var size: nat
    /** Every row that was offered. */
    ghost var offered: seq<Row>

    ghost predicate Valid()
      reads this
    {
      && Capped(shape, offered, max, rows, truncated)
      && (!truncated ==> size == Size(shape, offered))
    }

    constructor (max: int, shape: Row -> Row)
      ensures Valid() && this.max == max && this.shape == shape && offered == [] && rows == [] && !truncated
    {
      this.max, this.shape := max, shape;
      rows, truncated, size, offered := [], false, 0, [];
    }

    /** Takes the row, or says no: once it is full, for good. */
    method Add(row: Row) returns (taken: bool)
      requires Valid()
      modifies this
      ensures Valid() && offered == old(offered) + [row]
      ensures taken <==> !truncated
      ensures taken ==> rows == old(rows) + [shape(row)]
      ensures !taken ==> rows == old(rows)
    {
      ghost var all := offered + [row];
      assert all[..|offered|] == offered && all[..|all|] == all && offered[..|offered|] == offered;
      SizeStep(shape, all, |offered|);
      hide Size, Shaped;
      offered := all;
      if truncated {
        CappedExtends(shape, old(offered), [row], max, rows);
        return false;
      }
      if |rows| >= max {
        truncated := true;
        return false;
      }
      var shaped := shape(row);
      size := size + |Stringify(shaped)|;
      if size > MAX_RESULT_CHARS {
        truncated := true;
        return false;
      }
      rows := rows + [shaped];
      return true;
    }
  }

  /** The simple form: every row of a result, until one is refused. */
  method ShapeRows(all: seq<Row>, max: int, shape: Row -> Row) returns (kept: seq<Row>, truncated: bool)
    ensures Capped(shape, all, max, kept, truncated)
  {
    var out := new Collector(max, shape);
    hide Capped;
    var i := 0;
    while i < |all|
      invariant i <= |all| && out.Valid() && out.max == max && out.shape == shape
      invariant out.offered == all[..i] && !out.truncated
    {
      assert all[..i] + [all[i]] == all[..i + 1];
      var taken := out.Add(all[i]);
      i := i + 1;
      if !taken {
        break;
      }
    }
    assert all[..i] + all[i..] == all && all[..|all|] == all;
    if out.truncated {
      CappedExtends(shape, all[..i], all[i..], max, out.rows);
    }
    return out.rows, out.truncated;
  }
}
