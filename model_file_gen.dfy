/**
 * The ORM model-file generator: from the (column, dtype) pairs of the loan
 * CSV it writes a SQLAlchemy class with one `Column` per CSV column. The
 * file is the sequence of chunks handed to `write`, in order; reading the
 * CSV and inferring its dtypes is outside the model, so the pairs are the
 * input.
 */
module ModelFileGen {
  import opened Wrappers

  /** The dtype pandas inferred for a column; `Other` is any dtype but the three the map names. */
  datatype Dtype = Float64 | Int64 | Object | Other(text: string)

  datatype CsvColumn = CsvColumn(name: string, dtype: Dtype)

  const ModelName := "LoanAccount"
  const TableName := "loan_accounts"
  const UniqueId := "UNIQUE_ID"
  const KeySuffix := ", primary_key=True, index=True)\n"

  /** The dtype map; any other dtype is a `KeyError`. */
  function ColumnType(dtype: Dtype): (t: Option<string>) {
    match dtype
    case Float64 => Some("Float")
    case Int64 => Some("Integer")
    case Object => Some("String")
    case Other(_) => None
  }

  /** The chunks written before the loop: imports, `Base`, the class line and the table name. */
  function Header(): (chunks: seq<string>) {
    [ "from sqlalchemy.ext.declarative import declarative_base\n",
      "from sqlalchemy import Column, Integer, String, Float\n\n",
      "Base = declarative_base()\n\n",
      "class " + ModelName + "(Base):\n",
      "    __tablename__ = \"" + TableName + "\"\n\n" ]
  }

  /** The `Column` line of one CSV column; the unique id is the primary key and indexed. */
  function ColumnLine(name: string, t: string): (line: string) {
    if name == UniqueId then "    " + name + " = Column(" + t + KeySuffix
    else "    " + name + " = Column(" + t + ")\n"
  }

  predicate EndsWith(s: string, suffix: string) {
    |suffix| <= |s| && s[|s| - |suffix|..] == suffix
  }

  /** A line is the primary key's exactly when its column is the unique id. */
  lemma KeyLineOnlyForUniqueId(name: string, dtype: Dtype)
    requires !dtype.Other?
    ensures ColumnType(dtype).Some?
    ensures EndsWith(ColumnLine(name, ColumnType(dtype).value), KeySuffix) <==> name == UniqueId
  {
    var t := ColumnType(dtype).value;
    var line := ColumnLine(name, t);
    if name == UniqueId {
      assert line == ("    " + name + " = Column(" + t) + KeySuffix;
    } else {
      var plain := "    " + name + " = Column(" + t;
      assert line == plain + ")\n";
      assert |line| >= |KeySuffix| ==> line[|line| - 3] == t[|t| - 1];
      assert KeySuffix[|KeySuffix| - 3] == 'e';
    }
  }

  /** What the script leaves behind: the chunks written, and the dtype of a `KeyError`. */
  datatype Generated = Generated(chunks: seq<string>, keyError: Option<Dtype>)

  /** One turn of the loop: nothing more once an error is raised, else the column's line or a `KeyError`. */
  function Step(prev: Generated, c: CsvColumn): (next: Generated) {
    if prev.keyError.Some? then prev
    else match ColumnType(c.dtype)
      case None => Generated(prev.chunks, Some(c.dtype))
      case Some(t) => Generated(prev.chunks + [ColumnLine(c.name, t)], None)
  }

  /** The loop run over `columns`, starting from what has been written before it. */
  function Run(start: Generated, columns: seq<CsvColumn>): (g: Generated) {
    if columns == [] then start
    else Step(Run(start, columns[..|columns| - 1]), columns[|columns| - 1])
  }

  /** The whole script's file: the header, then the loop. */
  function Output(columns: seq<CsvColumn>): (g: Generated) {
    Run(Generated(Header(), None), columns)
  }

  /** The lines of columns whose dtypes are all mapped, in column order. */
  function ColumnLines(columns: seq<CsvColumn>): (lines: seq<string>)
    requires MappedBefore(columns, |columns|)
    ensures |lines| == |columns|
  {
    if columns == [] then []
    else
      var last := columns[|columns| - 1];
      MappedPrefix(columns, |columns| - 1);
      ColumnLines(columns[..|columns| - 1]) + [ColumnLine(last.name, ColumnType(last.dtype).value)]
  }

  /** Line `i` is column `i`'s. */
  lemma {:induction false} ColumnLinesAt(columns: seq<CsvColumn>, i: nat)
    requires MappedBefore(columns, |columns|) && i < |columns|
    ensures ColumnLines(columns)[i] == ColumnLine(columns[i].name, ColumnType(columns[i].dtype).value)
  {
    if i < |columns| - 1 {
      var init := columns[..|columns| - 1];
      MappedPrefix(columns, |init|);
      ColumnLinesAt(init, i);
    }
  }

  /** Every dtype in the prefix before `k` is mapped. */
  predicate MappedBefore(columns: seq<CsvColumn>, k: nat)
    requires k <= |columns|
  {
    forall i :: 0 <= i < k ==> ColumnType(columns[i].dtype).Some?
  }

  /**
   * With every dtype mapped, the loop appends one line per column in column
   * order, and no error is raised.
   */
  lemma {:induction false} RunOfMapped(written: seq<string>, columns: seq<CsvColumn>)
    requires MappedBefore(columns, |columns|)
    ensures Run(Generated(written, None), columns) == Generated(written + ColumnLines(columns), None)
  {
    if columns != [] {
      var init := columns[..|columns| - 1];
      MappedPrefix(columns, |init|);
      RunOfMapped(written, init);
    } else {
      assert written + ColumnLines(columns) == written;
    }
  }

  /** Once a `KeyError` is raised, later columns write nothing. */
  lemma {:induction false} ErrorStops(start: Generated, columns: seq<CsvColumn>, n: nat)
    requires n <= |columns| && Run(start, columns[..n]).keyError.Some?
    ensures Run(start, columns) == Run(start, columns[..n])
    decreases |columns| - n
  {
    if n < |columns| {
      var init := columns[..|columns| - 1];
      assert init[..n] == columns[..n];
      ErrorStops(start, init, n);
    } else {
      assert columns[..n] == columns;
    }
  }

  lemma MappedPrefix(columns: seq<CsvColumn>, k: nat)
    requires k <= |columns| && MappedBefore(columns, k)
    ensures MappedBefore(columns[..k], k)
  {
    var pre := columns[..k];
    forall i | 0 <= i < k ensures ColumnType(pre[i].dtype).Some? {
      assert pre[i] == columns[i];
    }
  }

  /**
   * At the first unmapped dtype the loop stops: the file keeps what was
   * written before it and the lines of the columns before it, and the error
   * names that dtype.
   */
  lemma {:induction false} RunAtFirstUnmapped(written: seq<string>, columns: seq<CsvColumn>, k: nat)
    requires k < |columns| && MappedBefore(columns, k) && ColumnType(columns[k].dtype).None?
    ensures MappedBefore(columns[..k], k)
    ensures Run(Generated(written, None), columns) == Generated(written + ColumnLines(columns[..k]), Some(columns[k].dtype))
  {
    var init := columns[..|columns| - 1];
    MappedPrefix(columns, k);
    if k == |columns| - 1 {
      RunOfMapped(written, init);
      StepOfUnmapped(Run(Generated(written, None), init), columns[k]);
    } else {
      assert init[k] == columns[k] && init[..k] == columns[..k];
      MappedPrefix(init, k);
      RunAtFirstUnmapped(written, init, k);
    }
  }

  lemma StepOfUnmapped(prev: Generated, c: CsvColumn)
    requires prev.keyError.None? && ColumnType(c.dtype).None?
    ensures Step(prev, c) == Generated(prev.chunks, Some(c.dtype))
  {
  }

  /** The error is raised exactly when some dtype is outside the map. */
  lemma {:induction false} ErrorIffUnmapped(start: Generated, columns: seq<CsvColumn>)
    requires start.keyError.None?
    ensures Run(start, columns).keyError.None? <==> MappedBefore(columns, |columns|)
  {
    if columns != [] {
      var init := columns[..|columns| - 1];
      ErrorIffUnmapped(start, init);
      assert MappedBefore(init, |init|) <==> MappedBefore(columns, |init|) by {
        assert forall i :: 0 <= i < |init| ==> init[i] == columns[i];
      }
    }
  }

  /**
   * The generated file: with every dtype mapped, the header and one line per
   * column in column order; otherwise the header and the lines before the
   * first unmapped dtype, with a `KeyError` naming it.
   */
  lemma OutputMeaning(columns: seq<CsvColumn>)
    ensures Output(columns).keyError.None? <==> MappedBefore(columns, |columns|)
    ensures MappedBefore(columns, |columns|) ==> Output(columns).chunks == Header() + ColumnLines(columns)
    ensures forall k :: 0 <= k < |columns| && MappedBefore(columns, k) && ColumnType(columns[k].dtype).None? ==>
      Output(columns) == Generated(Header() + ColumnLines(columns[..k]), Some(columns[k].dtype))
  {
    ErrorIffUnmapped(Generated(Header(), None), columns);
    if MappedBefore(columns, |columns|) {
      RunOfMapped(Header(), columns);
    }
    forall k | 0 <= k < |columns| && MappedBefore(columns, k) && ColumnType(columns[k].dtype).None?
      ensures Output(columns) == Generated(Header() + ColumnLines(columns[..k]), Some(columns[k].dtype))
    {
      RunAtFirstUnmapped(Header(), columns, k);
    }
  }

  /**
   * The script itself: header chunks, then one `write` per column until a
   * dtype is missing from the map.
   */
  method Generate(columns: seq<CsvColumn>) returns (file: seq<string>, keyError: Option<Dtype>)
    ensures Generated(file, keyError) == Output(columns)
  {
    var header := Header();
    file := header;
    keyError := None;
    var i := 0;
    while i < |columns|
      invariant 0 <= i <= |columns|
      invariant Run(Generated(header, None), columns[..i]) == Generated(file, None)
    {
      var c := columns[i];
      assert columns[..i + 1][..i] == columns[..i];
      var t := ColumnType(c.dtype);
      if t.None? {
        keyError := Some(c.dtype);
        ErrorStops(Generated(header, None), columns, i + 1);
        return;
      }
      if c.name == UniqueId {
        file := file + ["    " + c.name + " = Column(" + t.value + KeySuffix];
      } else {
        file := file + ["    " + c.name + " = Column(" + t.value + ")\n"];
      }
      i := i + 1;
    }
    assert columns[..i] == columns;
  }
}
