/**
 * The table operations the training script and the dashboard take from pandas
 * and from Python's `str`, restated over sequences of rows: a boolean-mask row
 * selection, per-key sums and running sums (`groupby(...).sum()` and
 * `groupby(...).cumsum()`), and substring replacement.
 */
module Frames {

  /** `df[mask]`: the rows that satisfy `keep`, in their original order. */
  function Filter<T(!new)>(rows: seq<T>, keep: T -> bool): (r: seq<T>)
    ensures |r| <= |rows|
    ensures forall x :: x in r <==> x in rows && keep(x)
  {
    if rows == [] then []
    else (if keep(rows[0]) then [rows[0]] else []) + Filter(rows[1..], keep)
  }

  /** A selection that every row passes leaves the rows as they are. */
  lemma {:induction false} FilterKeepsAll<T(!new)>(rows: seq<T>, keep: T -> bool)
    requires forall x :: x in rows ==> keep(x)
    ensures Filter(rows, keep) == rows
  {
    if rows != [] {
      FilterKeepsAll(rows[1..], keep);
      assert [rows[0]] + rows[1..] == rows;
    }
  }

  /** A selection that no row passes is empty. */
  lemma {:induction false} FilterKeepsNone<T(!new)>(rows: seq<T>, keep: T -> bool)
    requires forall x :: x in rows ==> !keep(x)
    ensures Filter(rows, keep) == []
  {
    if rows != [] {
      FilterKeepsNone(rows[1..], keep);
    }
  }

  /** Selecting from two tables stacked is stacking the two selections. */
  lemma {:induction false} FilterAppend<T(!new)>(a: seq<T>, b: seq<T>, keep: T -> bool)
    ensures Filter(a + b, keep) == Filter(a, keep) + Filter(b, keep)
  {
    if a == [] {
      assert a + b == b;
    } else {
      assert (a + b)[0] == a[0];
      assert (a + b)[1..] == a[1..] + b;
      FilterAppend(a[1..], b, keep);
    }
  }

  /** Selecting from a table is selecting from its first `n` rows, then from the rest. */
  lemma FilterSplit<T(!new)>(rows: seq<T>, n: nat, keep: T -> bool)
    requires n <= |rows|
    ensures Filter(rows, keep) == Filter(rows[..n], keep) + Filter(rows[n..], keep)
  {
    assert rows[..n] + rows[n..] == rows;
    FilterAppend(rows[..n], rows[n..], keep);
  }

  /** A table's first row heads the selection exactly when it passes. */
  lemma FilterCons<T(!new)>(x: T, rest: seq<T>, keep: T -> bool)
    ensures Filter([x] + rest, keep) == (if keep(x) then [x] else []) + Filter(rest, keep)
  {
    assert ([x] + rest)[0] == x && ([x] + rest)[1..] == rest;
  }

  /** Adding one row to a table adds it to the selection exactly when it passes. */
  lemma FilterSnoc<T(!new)>(rows: seq<T>, x: T, keep: T -> bool)
    ensures Filter(rows + [x], keep) == Filter(rows, keep) + (if keep(x) then [x] else [])
  {
    FilterAppend(rows, [x], keep);
    assert [x][1..] == [];
  }

  /** A selection that exactly one row fails drops exactly that one row. */
  lemma {:induction false} FilterDropsOne<T(!new)>(rows: seq<T>, keep: T -> bool, k: nat)
    requires k < |rows| && !keep(rows[k])
    requires forall j :: 0 <= j < |rows| && j != k ==> keep(rows[j])
    ensures |Filter(rows, keep)| == |rows| - 1
  {
    if k == 0 {
      FilterKeepsAll(rows[1..], keep);
    } else {
      FilterDropsOne(rows[1..], keep, k - 1);
    }
  }

  /** No two rows share a key. */
  predicate DistinctBy<T, K(==)>(rows: seq<T>, key: T -> K)
  {
    forall i, j :: 0 <= i < |rows| && 0 <= j < |rows| && key(rows[i]) == key(rows[j]) ==> i == j
  }

  /** A row whose key no other row has can head a table of distinct keys. */
  lemma DistinctByCons<T, K>(x: T, rest: seq<T>, key: T -> K)
    requires DistinctBy(rest, key)
    requires forall y :: y in rest ==> key(y) != key(x)
    ensures DistinctBy([x] + rest, key)
  {
    var all := [x] + rest;
    forall k | 0 < k < |all| ensures all[k] == rest[k - 1] && key(all[k]) != key(x) {
      assert rest[k - 1] in rest;
    }
  }

  /** Past the first row, a table of distinct keys keeps them distinct, and none is the first row's. */
  lemma DistinctByTail<T, K>(rows: seq<T>, key: T -> K)
    requires rows != [] && DistinctBy(rows, key)
    ensures DistinctBy(rows[1..], key)
    ensures forall y :: y in rows[1..] ==> key(y) != key(rows[0])
  {
    forall i, j | 0 <= i < |rows[1..]| && 0 <= j < |rows[1..]| && key(rows[1..][i]) == key(rows[1..][j])
      ensures i == j
    {
      assert rows[1..][i] == rows[i + 1] && rows[1..][j] == rows[j + 1];
    }
    forall y | y in rows[1..] ensures key(y) != key(rows[0]) {
      var j :| 0 <= j < |rows[1..]| && rows[1..][j] == y;
      assert rows[j + 1] == y;
    }
  }

  /** A selection from a table of distinct keys has distinct keys. */
  lemma {:induction false} FilterDistinctBy<T(!new), K>(rows: seq<T>, keep: T -> bool, key: T -> K)
    requires DistinctBy(rows, key)
    ensures DistinctBy(Filter(rows, keep), key)
  {
    if rows != [] {
      DistinctByTail(rows, key);
      FilterDistinctBy(rows[1..], keep, key);
      if keep(rows[0]) {
        DistinctByCons(rows[0], Filter(rows[1..], keep), key);
      } else {
        assert Filter(rows, keep) == Filter(rows[1..], keep);
      }
    }
  }

  /** Sum of `vals[j]` over the rows `j < n` whose key is `key`. */
  function SumFor<K(==)>(keys: seq<K>, vals: seq<int>, n: nat, key: K): int
    requires |keys| == |vals| && n <= |keys|
  {
    if n == 0 then 0
    else SumFor(keys, vals, n - 1, key) + (if keys[n - 1] == key then vals[n - 1] else 0)
  }

  /** A key that does not occur among the first `n` rows has sum zero there. */
  lemma {:induction false} SumForAbsent<K>(keys: seq<K>, vals: seq<int>, n: nat, key: K)
    requires |keys| == |vals| && n <= |keys|
    requires forall j :: 0 <= j < n ==> keys[j] != key
    ensures SumFor(keys, vals, n, key) == 0
  {
    if n > 0 {
      SumForAbsent(keys, vals, n - 1, key);
    }
  }

  /** With non-negative values, a per-key sum only grows as rows are added. */
  lemma {:induction false} SumForMonotone<K>(keys: seq<K>, vals: seq<int>, n: nat, m: nat, key: K)
    requires |keys| == |vals| && n <= m <= |keys|
    requires forall j :: 0 <= j < |vals| ==> vals[j] >= 0
    ensures SumFor(keys, vals, n, key) <= SumFor(keys, vals, m, key)
  {
    if n < m {
      SumForMonotone(keys, vals, n, m - 1, key);
    }
  }

  /** How many of the first `n` rows carry `key`. */
  function CountFor<K(==)>(keys: seq<K>, n: nat, key: K): (c: nat)
    requires n <= |keys|
    ensures c <= n
  {
    if n == 0 then 0
    else CountFor(keys, n - 1, key) + (if keys[n - 1] == key then 1 else 0)
  }

  /**
   * With values in `[0, 1]`, a per-key sum over `n` rows lies between 0 and
   * the number of those rows that carry the key.
   */
  lemma {:induction false} SumForOfFlags<K>(keys: seq<K>, vals: seq<int>, n: nat, key: K)
    requires |keys| == |vals| && n <= |keys|
    requires forall j :: 0 <= j < |vals| ==> 0 <= vals[j] <= 1
    ensures 0 <= SumFor(keys, vals, n, key) <= CountFor(keys, n, key) <= n
  {
    if n > 0 {
      SumForOfFlags(keys, vals, n - 1, key);
    }
  }

  /** `groupby(key)[col].sum()`: one total per key that occurs. */
  method GroupSum<K(==)>(keys: seq<K>, vals: seq<int>) returns (totals: map<K, int>)
    requires |keys| == |vals|
    ensures forall key :: key in totals <==> key in keys
    ensures forall key :: key in totals ==> totals[key] == SumFor(keys, vals, |keys|, key)
  {
    totals := map[];
    var i := 0;
    while i < |keys|
      invariant 0 <= i <= |keys|
      invariant forall key :: key in totals <==> key in keys[..i]
      invariant forall key :: key in totals ==> totals[key] == SumFor(keys, vals, i, key)
      invariant forall key :: key !in totals ==> SumFor(keys, vals, i, key) == 0
    {
      var key := keys[i];
      var before := if key in totals then totals[key] else 0;
      totals := totals[key := before + vals[i]];
      assert keys[..i + 1] == keys[..i] + [key];
      i := i + 1;
    }
    assert keys[..|keys|] == keys;
  }

  /**
   * `groupby(key)[col].cumsum()`: for every row, the sum of `col` over the rows
   * of its own group up to and including it, the rows staying in input order.
   */
  method GroupCumSum<K(==)>(keys: seq<K>, vals: seq<int>) returns (running: seq<int>)
    requires |keys| == |vals|
    ensures |running| == |keys|
    ensures forall k :: 0 <= k < |keys| ==> running[k] == SumFor(keys, vals, k + 1, keys[k])
  {
    var totals: map<K, int> := map[];
    running := [];
    var i := 0;
    while i < |keys|
      invariant 0 <= i <= |keys|
      invariant |running| == i
      invariant forall k :: 0 <= k < i ==> running[k] == SumFor(keys, vals, k + 1, keys[k])
      invariant forall key :: key in totals ==> totals[key] == SumFor(keys, vals, i, key)
      invariant forall key :: key !in totals ==> SumFor(keys, vals, i, key) == 0
    {
      var key := keys[i];
      var now := (if key in totals then totals[key] else 0) + vals[i];
      totals := totals[key := now];
      running := running + [now];
      i := i + 1;
    }
  }

  /**
   * Python's `str.replace(pat, rep)`: every occurrence of `pat`, found scanning
   * left to right without overlap, becomes `rep`.
   */
  function ReplaceAll(s: string, pat: string, rep: string): string
    requires pat != []
    decreases |s|
  {
    if |s| < |pat| then s
    else if s[..|pat|] == pat then rep + ReplaceAll(s[|pat|..], pat, rep)
    else [s[0]] + ReplaceAll(s[1..], pat, rep)
  }

  /** Replacing inside a string that is exactly the pattern yields the replacement. */
  lemma ReplaceAllWhole(pat: string, rep: string)
    requires pat != []
    ensures ReplaceAll(pat, pat, rep) == rep
  {
    assert pat[..|pat|] == pat;
    assert pat[|pat|..] == [];
    assert rep + [] == rep;
  }

  /** A string without the pattern's first character is left unchanged. */
  lemma {:induction false} ReplaceAllAbsent(s: string, pat: string, rep: string)
    requires pat != [] && pat[0] !in s
    ensures ReplaceAll(s, pat, rep) == s
  {
    if |s| >= |pat| {
      assert s[..|pat|][0] == s[0];
      ReplaceAllAbsent(s[1..], pat, rep);
      assert [s[0]] + s[1..] == s;
    }
  }
}
