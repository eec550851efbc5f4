/**
 * The vocabulary shared by the dashboard and the training script: the derived
 * feature values of one chase situation, and one frame row as named cells in
 * column order, which is what the classifier pipeline receives.
 */
module Schema {
  import opened Wrappers
  import opened Frames

  /** A cell of a frame: a category label, an integer, a float, or NaN. */
  datatype Cell = Category(name: string) | Count(n: int) | Rate(x: real) | Missing

  /** One frame row as (column name, cell) pairs, in column order. */
  type Row = seq<(string, Cell)>

  /** The derived features of one second-innings situation. */
  datatype Features = Features(
    battingTeam: string,
    bowlingTeam: string,
    city: Option<string>,
    runsLeft: int,
    ballsLeft: int,
    wickets: int,
    totalRunsX: int,
    crr: real,
    rrr: real,
    pressure: real,
    runsPerWicket: real)

  /** `max` on two integers (Python's `max`, numpy's `np.maximum`). */
  function Max(a: int, b: int): int
  {
    if a >= b then a else b
  }

  /** A category column's cell: NaN when the label is absent. */
  function CategoryCell(name: Option<string>): Cell
  {
    match name
    case Some(l) => Category(l)
    case None => Missing
  }

  /** The column names of a row, in order. */
  function Names(row: Row): seq<string>
  {
    seq(|row|, k requires 0 <= k < |row| => row[k].0)
  }

  /** `frame.drop(cols, axis=1)` on a list of column names. */
  function DropNames(names: seq<string>, cols: set<string>): (r: seq<string>)
    ensures forall c :: c in r <==> c in names && c !in cols
  {
    Filter(names, NotIn(cols))
  }

  /** The row-selection test of `DropNames`. */
  function NotIn(cols: set<string>): string -> bool
  {
    c => c !in cols
  }

  /** Dropping a name that is in `cols` leaves nothing. */
  lemma DropNamesDropped(c: string, cols: set<string>)
    requires c in cols
    ensures DropNames([c], cols) == []
  {
    assert !NotIn(cols)(c);
  }

  /** Dropping names none of which is in `cols` leaves them all. */
  lemma DropNamesKept(a: seq<string>, cols: set<string>)
    requires forall n :: n in a ==> n !in cols
    ensures DropNames(a, cols) == a
  {
    assert forall n :: n in a ==> NotIn(cols)(n);
    FilterKeepsAll(a, NotIn(cols));
  }

  /** Dropping from two lists stacked is stacking what each keeps. */
  lemma DropNamesAppend(a: seq<string>, b: seq<string>, cols: set<string>)
    ensures DropNames(a + b, cols) == DropNames(a, cols) + DropNames(b, cols)
  {
    FilterAppend(a, b, NotIn(cols));
  }

  /**
   * Dropping from a list made of a part that keeps all its names, a dropped
   * name, and another such part leaves the two parts.
   */
  lemma DropOneName(a: seq<string>, c: string, b: seq<string>, cols: set<string>)
    requires c in cols
    requires forall n :: n in a ==> n !in cols
    requires forall n :: n in b ==> n !in cols
    ensures DropNames(a + [c] + b, cols) == a + b
  {
    assert DropNames(a + [c], cols) == a by {
      DropNamesAppend(a, [c], cols);
      DropNamesDropped(c, cols);
      DropNamesKept(a, cols);
      assert a + [] == a;
    }
    assert DropNames(b, cols) == b by {
      DropNamesKept(b, cols);
    }
    DropNamesAppend(a + [c], b, cols);
  }

  /** `frame.drop(cols, axis=1)` on one row: the other cells, order kept. */
  function DropColumns(row: Row, cols: set<string>): (r: Row)
    ensures forall c :: c in r <==> c in row && c.0 !in cols
  {
    Filter(row, ColumnNotIn(cols))
  }

  /** The row-selection test of `DropColumns`. */
  function ColumnNotIn(cols: set<string>): ((string, Cell)) -> bool
  {
    (c: (string, Cell)) => c.0 !in cols
  }

  /**
   * Dropping from a row whose first and last columns are named in `cols`,
   * and no other column is, leaves the columns in between.
   */
  lemma DropFirstAndLast(row: Row, cols: set<string>)
    requires |row| >= 2 && row[0].0 in cols && row[|row| - 1].0 in cols
    requires forall k :: 0 < k < |row| - 1 ==> row[k].0 !in cols
    ensures DropColumns(row, cols) == row[1..|row| - 1]
  {
    var keep := ColumnNotIn(cols);
    var mid := row[1..|row| - 1];
    assert row == [row[0]] + mid + [row[|row| - 1]];
    assert forall c :: c in mid ==> keep(c);
    FilterKeepsAll(mid, keep);
    assert Filter([row[0]], keep) == [] + Filter([row[0]][1..], keep);
    assert Filter([row[|row| - 1]], keep) == [] + Filter([row[|row| - 1]][1..], keep);
    FilterAppend([row[0]] + mid, [row[|row| - 1]], keep);
    FilterAppend([row[0]], mid, keep);
    assert [] + mid + [] == mid;
  }
}
