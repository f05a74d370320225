/** Sums and selections over sequences: the SQL aggregates and WHERE clauses of the model. */
module Sums {
  /** SUM(f) over the rows. */
  function Total<T>(rows: seq<T>, f: T -> int): int {
    if |rows| == 0 then 0 else Total(rows[..|rows| - 1], f) + f(rows[|rows| - 1])
  }

  lemma TotalAppend<T>(rows: seq<T>, row: T, f: T -> int)
    ensures Total(rows + [row], f) == Total(rows, f) + f(row)
  {
    assert (rows + [row])[..|rows|] == rows;
  }

  lemma {:induction false} TotalConcat<T>(a: seq<T>, b: seq<T>, f: T -> int)
    ensures Total(a + b, f) == Total(a, f) + Total(b, f)
  {
    if |b| == 0 {
      assert a + b == a;
    } else {
      TotalConcat(a, b[..|b| - 1], f);
      assert (a + b)[..|a + b| - 1] == a + b[..|b| - 1];
    }
  }

  lemma {:induction false} TotalUpdate<T>(rows: seq<T>, i: nat, row: T, f: T -> int)
    requires i < |rows|
    ensures Total(rows[i := row], f) == Total(rows, f) - f(rows[i]) + f(row)
  {
    var n := |rows| - 1;
    if i == n {
      assert rows[i := row][..n] == rows[..n];
    } else {
      TotalUpdate(rows[..n], i, row, f);
      assert rows[i := row][..n] == rows[..n][i := row];
    }
  }

  lemma {:induction false} TotalPointwise<T>(a: seq<T>, b: seq<T>, f: T -> int, g: T -> int)
    requires |a| == |b| && forall i :: 0 <= i < |a| ==> f(a[i]) == g(b[i])
    ensures Total(a, f) == Total(b, g)
  {
    if |a| > 0 {
      TotalPointwise(a[..|a| - 1], b[..|b| - 1], f, g);
    }
  }

  lemma {:induction false} TotalZero<T>(rows: seq<T>, f: T -> int)
    requires forall i :: 0 <= i < |rows| ==> f(rows[i]) == 0
    ensures Total(rows, f) == 0
  {
    if |rows| > 0 {
      TotalZero(rows[..|rows| - 1], f);
    }
  }

  lemma {:induction false} TotalBounds<T>(rows: seq<T>, f: T -> int)
    requires forall i :: 0 <= i < |rows| ==> f(rows[i]) >= 0
    ensures Total(rows, f) >= 0
    ensures forall i :: 0 <= i < |rows| ==> f(rows[i]) <= Total(rows, f)
  {
    if |rows| > 0 {
      TotalBounds(rows[..|rows| - 1], f);
    }
  }

  /** The positions of the rows satisfying p, in row order (ORDER BY id). */
  function Where<T>(rows: seq<T>, p: T -> bool): (ids: seq<nat>)
    ensures forall k :: 0 <= k < |ids| ==> ids[k] < |rows| && p(rows[ids[k]])
    ensures forall i :: 0 <= i < |rows| && p(rows[i]) ==> i in ids
    ensures forall j, k :: 0 <= j < k < |ids| ==> ids[j] < ids[k]
  {
    if |rows| == 0 then []
    else
      Where(rows[..|rows| - 1], p) + (if p(rows[|rows| - 1]) then [|rows| - 1] else [])
  }

  lemma {:induction false} WhereNone<T>(rows: seq<T>, p: T -> bool)
    requires forall i :: 0 <= i < |rows| ==> !p(rows[i])
    ensures Where(rows, p) == []
  {
    if |rows| > 0 {
      WhereNone(rows[..|rows| - 1], p);
    }
  }

  /** The rows satisfying p, in order: a WHERE clause, or Array.filter. */
  function Select<T>(rows: seq<T>, p: T -> bool): seq<T> {
    if |rows| == 0 then []
    else Select(rows[..|rows| - 1], p) + if p(rows[|rows| - 1]) then [rows[|rows| - 1]] else []
  }

  lemma SelectAppend<T>(rows: seq<T>, row: T, p: T -> bool)
    ensures Select(rows + [row], p) == Select(rows, p) + if p(row) then [row] else []
  {
    assert (rows + [row])[..|rows|] == rows;
  }

  lemma {:induction false} SelectConcat<T>(a: seq<T>, b: seq<T>, p: T -> bool)
    ensures Select(a + b, p) == Select(a, p) + Select(b, p)
  {
    if |b| == 0 {
      assert a + b == a;
    } else {
      SelectConcat(a, b[..|b| - 1], p);
      assert (a + b)[..|a + b| - 1] == a + b[..|b| - 1];
    }
  }

  lemma {:induction false} SelectUniform<T>(rows: seq<T>, p: T -> bool, all: bool)
    requires forall i :: 0 <= i < |rows| ==> p(rows[i]) == all
    ensures Select(rows, p) == if all then rows else []
  {
    if |rows| > 0 {
      SelectUniform(rows[..|rows| - 1], p, all);
    }
  }
}
