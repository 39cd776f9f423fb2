/**
 * A pandas DataFrame reduced to what the services rely on: an ordered list of
 * column names, the cells of each column, and the number of rows.
 */
module Frames {
  import opened Wrappers

  /** One cell: NaN, a finite number, plus or minus infinity, or text. */
  datatype Cell = Missing | Num(value: real) | Inf(positive: bool) | Str(text: string)

  /** A numeric feature matrix handed to the fitted models, one row per record. */
  type Matrix = seq<seq<real>>

  datatype Frame = Frame(columns: seq<string>, data: map<string, seq<Cell>>, height: nat)

  /** Column names are distinct, each names a column of `height` cells, and no other column is stored. */
  predicate WellFormed(f: Frame) {
    && Distinct(f.columns)
    && (forall c :: c in f.columns ==> c in f.data && |f.data[c]| == f.height)
    && (forall c :: c in f.data ==> c in f.columns)
  }

  /** The cells `np.nan` broadcasts to in a new column. */
  function MissingColumn(n: nat): (r: seq<Cell>)
    ensures |r| == n && forall i :: 0 <= i < n ==> r[i] == Missing
  {
    seq(n, _ => Missing)
  }

  predicate RecordHasKey(record: seq<(string, Cell)>, k: string) {
    exists i :: 0 <= i < |record| && record[i].0 == k
  }

  /**
   * `pd.DataFrame([record])`: one row; a key given twice keeps the place of its
   * first occurrence and the value of its last, as a Python dict built from
   * the record does.
   */
  function OneRowFrame(record: seq<(string, Cell)>): (f: Frame)
    ensures WellFormed(f) && f.height == 1
    ensures forall c :: c in f.data <==> RecordHasKey(record, c)
  {
    if record == [] then Frame([], map[], 1)
    else
      var init := record[..|record| - 1];
      var f := OneRowFrame(init);
      var (k, v) := record[|record| - 1];
      assert forall c :: RecordHasKey(record, c) <==> RecordHasKey(init, c) || c == k by {
        forall c | RecordHasKey(record, c) && c != k ensures RecordHasKey(init, c) {
          var i :| 0 <= i < |record| && record[i].0 == c;
          assert init[i] == record[i];
        }
        forall c | RecordHasKey(init, c) ensures RecordHasKey(record, c) {
          var i :| 0 <= i < |init| && init[i].0 == c;
          assert record[i] == init[i];
        }
      }
      Frame(if k in f.columns then f.columns else f.columns + [k], f.data[k := [v]], 1)
  }
}
