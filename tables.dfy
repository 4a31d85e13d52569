/** The database abstracted as tables: a table is a sequence of rows in
    insertion order, and each ORM call used by the core is a function on it.
    `filter(...)` is Filter, `.count()` is Count, `.exists()` is Count > 0,
    a keyed `create` under a unique constraint is InsertUnique. */
module Tables {
  import opened Wrappers

  /** `queryset.filter(p)`: the rows that satisfy `p`, in table order. */
  function Filter<R>(rows: seq<R>, p: R -> bool): (r: seq<R>)
    ensures |r| <= |rows|
    ensures forall i :: 0 <= i < |r| ==> p(r[i])
  {
    if rows == [] then []
    else
      assert rows == [rows[0]] + rows[1..];
      (if p(rows[0]) then [rows[0]] else []) + Filter(rows[1..], p)
  }

  /** A filter keeps rows of the table only, and every row of it where the
      condition holds, each as often as the table has it at most. */
  lemma {:induction false} FilterMembers<R>(rows: seq<R>, p: R -> bool)
    ensures forall i :: 0 <= i < |Filter(rows, p)| ==> Filter(rows, p)[i] in rows
    ensures forall i :: 0 <= i < |rows| && p(rows[i]) ==> rows[i] in Filter(rows, p)
    ensures multiset(Filter(rows, p)) <= multiset(rows)
  {
    if rows != [] {
      var x, rest := rows[0], rows[1..];
      FilterMembers(rest, p);
      assert rows == [x] + rest;
      FilterCons(x, rest, p);
      var kept, tail := Keep(x, p), Filter(rest, p);
      assert Filter(rows, p) == kept + tail;
      forall i | 0 <= i < |kept + tail|
        ensures (kept + tail)[i] in rows
      {
        if i >= |kept| {
          assert (kept + tail)[i] == tail[i - |kept|];
        }
      }
      forall i | 0 <= i < |rows| && p(rows[i])
        ensures rows[i] in kept + tail
      {
        if i > 0 {
          assert rows[i] == rest[i - 1];
        }
      }
      assert multiset(kept + tail) == multiset(kept) + multiset(tail);
      assert multiset(kept) <= multiset{x};
      assert multiset(rows) == multiset{x} + multiset(rest);
    }
  }

  /** `queryset.filter(p).count()`. */
  function Count<R>(rows: seq<R>, p: R -> bool): (n: nat)
    ensures n <= |rows|
    ensures n == 0 <==> forall i :: 0 <= i < |rows| ==> !p(rows[i])
    ensures n == |rows| <==> forall i :: 0 <= i < |rows| ==> p(rows[i])
  {
    if rows == [] then 0
    else (if p(rows[0]) then 1 else 0) + Count(rows[1..], p)
  }

  lemma {:induction false} CountIsFilterLength<R>(rows: seq<R>, p: R -> bool)
    ensures Count(rows, p) == |Filter(rows, p)|
  {
    if rows != [] {
      CountIsFilterLength(rows[1..], p);
    }
  }

  lemma {:induction false} FilterAppend<R>(a: seq<R>, b: seq<R>, p: R -> bool)
    ensures Filter(a + b, p) == Filter(a, p) + Filter(b, p)
  {
    if a != [] {
      assert (a + b)[1..] == a[1..] + b;
      FilterAppend(a[1..], b, p);
    } else {
      assert a + b == b;
    }
  }

  lemma {:induction false} CountAppend<R>(a: seq<R>, b: seq<R>, p: R -> bool)
    ensures Count(a + b, p) == Count(a, p) + Count(b, p)
  {
    if a != [] {
      assert (a + b)[1..] == a[1..] + b;
      CountAppend(a[1..], b, p);
    } else {
      assert a + b == b;
    }
  }

  /** Splitting a table by a condition loses and duplicates no row: the rows
      that satisfy `p` and the rows that satisfy its negation `q` are,
      together, the table. */
  lemma {:induction false} FilterPartition<R>(rows: seq<R>, p: R -> bool, q: R -> bool)
    requires forall x :: q(x) <==> !p(x)
    ensures multiset(Filter(rows, p)) + multiset(Filter(rows, q)) == multiset(rows)
  {
    if rows != [] {
      var x, rest := rows[0], rows[1..];
      FilterPartition(rest, p, q);
      assert rows == [x] + rest;
      FilterCons(x, rest, p);
      FilterCons(x, rest, q);
      assert multiset(Keep(x, p)) + multiset(Keep(x, q)) == multiset{x} by {
        if p(x) {
          assert !q(x);
        } else {
          assert q(x);
        }
      }
      assert multiset(rows) == multiset{x} + multiset(rest);
    }
  }

  /** A filter that no row satisfies is empty. */
  lemma FilterNone<R>(rows: seq<R>, p: R -> bool)
    requires forall i :: 0 <= i < |rows| ==> !p(rows[i])
    ensures Filter(rows, p) == []
  {
    CountIsFilterLength(rows, p);
  }

  /** The first row that satisfies `p`. */
  function FirstIndex<R>(rows: seq<R>, p: R -> bool): (k: nat)
    requires exists i :: 0 <= i < |rows| && p(rows[i])
    ensures k < |rows| && p(rows[k])
    ensures forall i :: 0 <= i < k ==> !p(rows[i])
  {
    if p(rows[0]) then 0
    else
      assert exists i :: 0 <= i < |rows[1..]| && p(rows[1..][i]) by {
        var i :| 0 <= i < |rows| && p(rows[i]);
        assert rows[1..][i - 1] == rows[i];
      }
      1 + FirstIndex(rows[1..], p)
  }

  /** The rows a filter keeps of a single row. */
  function Keep<R>(x: R, p: R -> bool): (r: seq<R>)
    ensures r == [x] || r == []
    ensures r == [x] <==> p(x)
  {
    if p(x) then [x] else []
  }

  lemma {:induction false} FilterCons<R>(x: R, rest: seq<R>, p: R -> bool)
    ensures Filter([x] + rest, p) == Keep(x, p) + Filter(rest, p)
  {
    assert ([x] + rest)[1..] == rest;
  }

  /** The filter of a table is the filter of the rows before row `k`, then
      row `k` when it satisfies `p`, then the filter of the rows after it. */
  lemma {:induction false} FilterSplit<R>(rows: seq<R>, k: nat, p: R -> bool)
    requires k < |rows|
    ensures Filter(rows, p) == Filter(rows[..k], p) + (Keep(rows[k], p) + Filter(rows[k + 1..], p))
  {
    var a, b := rows[..k], rows[k + 1..];
    assert rows == a + ([rows[k]] + b);
    FilterAppend(a, [rows[k]] + b, p);
    FilterCons(rows[k], b, p);
  }

  /** Changing a row that neither before nor after satisfies `p` leaves the filter alone. */
  lemma {:induction false} FilterUpdateOutside<R>(rows: seq<R>, k: nat, x: R, p: R -> bool)
    requires k < |rows| && !p(rows[k]) && !p(x)
    ensures Filter(rows[k := x], p) == Filter(rows, p)
  {
    var t := rows[k := x];
    FilterSplit(rows, k, p);
    FilterSplit(t, k, p);
    assert t[..k] == rows[..k];
    assert t[k + 1..] == rows[k + 1..];
  }

  /** Changing the only row that satisfies `p` into another that does. */
  lemma {:induction false} FilterUpdateOnly<R>(rows: seq<R>, k: nat, x: R, p: R -> bool)
    requires k < |rows| && p(rows[k]) && p(x) && Count(rows, p) == 1
    ensures Filter(rows[k := x], p) == [x]
  {
    var t := rows[k := x];
    FilterSplit(rows, k, p);
    FilterSplit(t, k, p);
    assert t[..k] == rows[..k];
    assert t[k + 1..] == rows[k + 1..];
    CountIsFilterLength(rows, p);
    var fa, fb := Filter(rows[..k], p), Filter(rows[k + 1..], p);
    assert |fa| + 1 + |fb| == 1;
    assert fa == [] && fb == [];
    assert Keep(x, p) == [x];
  }

  /** Changing one row changes the count by what that row contributes. */
  lemma {:induction false} CountUpdate<R>(rows: seq<R>, k: nat, x: R, p: R -> bool)
    requires k < |rows|
    ensures Count(rows[k := x], p) == Count(rows, p) - (if p(rows[k]) then 1 else 0) + (if p(x) then 1 else 0)
  {
    if k > 0 {
      assert rows[k := x][1..] == rows[1..][k - 1 := x];
      CountUpdate(rows[1..], k - 1, x, p);
    }
  }

  /** A filter keeps every row where the condition holds and returns the
      table itself when the condition holds everywhere. */
  lemma {:induction false} FilterAll<R>(rows: seq<R>, p: R -> bool)
    requires forall i :: 0 <= i < |rows| ==> p(rows[i])
    ensures Filter(rows, p) == rows
  {
    if rows != [] {
      FilterAll(rows[1..], p);
    }
  }

  /** Sum of `f` over the rows (`aggregate(Sum(...))`, 0 for no rows as `or 0` makes it). */
  function Sum<R>(rows: seq<R>, f: R -> int): int
  {
    if rows == [] then 0 else f(rows[0]) + Sum(rows[1..], f)
  }

  lemma {:induction false} SumAppend<R>(a: seq<R>, b: seq<R>, f: R -> int)
    ensures Sum(a + b, f) == Sum(a, f) + Sum(b, f)
  {
    if a != [] {
      assert (a + b)[1..] == a[1..] + b;
      SumAppend(a[1..], b, f);
    } else {
      assert a + b == b;
    }
  }

  // ------------------------------------------------------- unique constraints

  /** A `unique` / `unique_together` constraint: no two rows share a key. */
  ghost predicate UniqueBy<R, K>(rows: seq<R>, key: R -> K) {
    forall i, j :: 0 <= i < j < |rows| ==> key(rows[i]) != key(rows[j])
  }

  /** The database's refusals: a key already taken, or a value that fails a
      column's CHECK constraint (such as the `>= 0` of a `PositiveIntegerField`). */
  datatype IntegrityError = DuplicateKey | CheckFailed(column: string)

  /** `Model.objects.create(...)` under a unique constraint: the database
      refuses a row whose key is already taken. */
  function InsertUnique<R, K(==)>(rows: seq<R>, row: R, key: R -> K): (r: Result<seq<R>, IntegrityError>)
    ensures r.Ok? <==> forall i :: 0 <= i < |rows| ==> key(rows[i]) != key(row)
    ensures r.Ok? ==> r.value == rows + [row]
  {
    if exists i :: 0 <= i < |rows| && key(rows[i]) == key(row) then Err(DuplicateKey)
    else Ok(rows + [row])
  }

  /** The constraint is a table invariant: no insertion breaks it. */
  lemma InsertKeepsUnique<R, K>(rows: seq<R>, row: R, key: R -> K)
    requires UniqueBy(rows, key)
    ensures InsertUnique(rows, row, key).Ok? ==> UniqueBy(InsertUnique(rows, row, key).value, key)
  {
    var r := InsertUnique(rows, row, key);
    if r.Ok? {
      var t := r.value;
      forall i, j | 0 <= i < j < |t| ensures key(t[i]) != key(t[j]) {
        if j == |rows| {
          assert t[j] == row && t[i] == rows[i];
        } else {
          assert t[i] == rows[i] && t[j] == rows[j];
        }
      }
    }
  }
}
