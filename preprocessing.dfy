/**
 * The fraud service's tabular preprocessing: aligning an input frame with the
 * training schema, turning placeholder strings into missing values, and
 * integer-encoding the categorical columns before the fitted imputer and
 * scaler (both opaque here) produce the model's feature matrix.
 */
module Preprocessing {
  import opened Wrappers
  import opened Frames
  import opened Sets
  import LabelCodec
  import opened Texts

  /** The strings replaced by NaN before encoding. */
  const Placeholders: seq<string> := ["\\N", "NA", "NaN", "null", ""]

  const BadStage := "Stage must be either 'stage1' or 'stage2'"
  /** Calling `transform` on a component that was never fitted or loaded. */
  const NotFitted := "'NoneType' object has no attribute 'transform'"

  // ---------------------------------------------------------------------
  // Placeholders
  // ---------------------------------------------------------------------

  function ReplacePlaceholder(c: Cell): (r: Cell)
    ensures r.Str? ==> r.text !in Placeholders
  {
    if c.Str? && c.text in Placeholders then Missing else c
  }

  function ReplacePlaceholders(cells: seq<Cell>): (r: seq<Cell>)
    ensures |r| == |cells|
  {
    seq(|cells|, i requires 0 <= i < |cells| => ReplacePlaceholder(cells[i]))
  }

  /** `X.replace(placeholders, np.nan)` on every column. */
  function Replaced(x: Frame): (y: Frame)
    ensures y.columns == x.columns && y.height == x.height && y.data.Keys == x.data.Keys
    ensures WellFormed(x) ==> WellFormed(y)
  {
    x.(data := map c | c in x.data :: ReplacePlaceholders(x.data[c]))
  }

  /** After replacement no cell holds a placeholder, and every other cell is unchanged. */
  lemma PlaceholdersGone(x: Frame, c: string, i: nat)
    requires c in x.data && i < |x.data[c]|
    ensures var cell := Replaced(x).data[c][i];
      && !(cell.Str? && cell.text in Placeholders)
      && (x.data[c][i].Str? && x.data[c][i].text in Placeholders ==> cell == Missing)
      && (!(x.data[c][i].Str? && x.data[c][i].text in Placeholders) ==> cell == x.data[c][i])
  {
  }

  // ---------------------------------------------------------------------
  // Categorical encoding
  // ---------------------------------------------------------------------

  /** A column pandas stores with `object` dtype: it still holds some text. */
  predicate IsCategorical(cells: seq<Cell>) {
    exists i :: 0 <= i < |cells| && cells[i].Str?
  }

  /** `astype(str)`; `floatRepr` is Python's rendering of a finite float. */
  function AsText(c: Cell, floatRepr: real -> string): (t: string) {
    match c
    case Missing => "nan"
    case Num(v) => floatRepr(v)
    case Inf(positive) => if positive then "inf" else "-inf"
    case Str(s) => s
  }

  function CellTexts(cells: seq<Cell>, floatRepr: real -> string): (r: seq<string>)
    ensures |r| == |cells|
  {
    seq(|cells|, i requires 0 <= i < |cells| => AsText(cells[i], floatRepr))
  }

  /**
   * `pd.Categorical(values).codes` for `v`: its position among the sorted
   * distinct values, that is, the number of distinct values before it.
   */
  function CategoryCode(values: seq<string>, v: string): (code: nat) {
    |set u | u in values && Before(u, v)|
  }

  /** A value sorted before another one that occurs gets a smaller code. */
  lemma CategoryCodeMonotone(values: seq<string>, a: string, b: string)
    requires a in values && Before(a, b)
    ensures CategoryCode(values, a) < CategoryCode(values, b)
  {
    var lo := set u | u in values && Before(u, a);
    var hi := set u | u in values && Before(u, b);
    forall u | u in lo ensures u in hi {
      BeforeTransitive(u, a, b);
    }
    BeforeIrreflexive(a);
    assert a in hi - lo;
    StrictSubsetCardinality(lo, hi);
  }

  /**
   * The codes of the no-encoder path number the distinct values from 0 in
   * sorted order: they are below the number of distinct values, equal for
   * equal values and ordered like the values.
   */
  lemma CategoryCodesOrdered(values: seq<string>, i: nat, j: nat)
    requires i < |values| && j < |values|
    ensures CategoryCode(values, values[i]) < |set u | u in values|
    ensures Before(values[i], values[j]) <==> CategoryCode(values, values[i]) < CategoryCode(values, values[j])
    ensures values[i] == values[j] <==> CategoryCode(values, values[i]) == CategoryCode(values, values[j])
  {
    var below := set u | u in values && Before(u, values[i]);
    var all := set u | u in values;
    BeforeIrreflexive(values[i]);
    assert values[i] in all - below;
    StrictSubsetCardinality(below, all);
    if values[i] != values[j] {
      BeforeTotal(values[i], values[j]);
      if Before(values[i], values[j]) {
        CategoryCodeMonotone(values, values[i], values[j]);
      } else {
        CategoryCodeMonotone(values, values[j], values[i]);
      }
    }
  }

  /** With a nonempty class list, each label outside it becomes the first class. */
  function ReplaceUnseen(classes: seq<string>, values: seq<string>): (r: seq<string>)
    ensures |r| == |values|
  {
    if |classes| > 0 then
      seq(|values|, i requires 0 <= i < |values| => if values[i] in classes then values[i] else classes[0])
    else values
  }

  /** One categorical column: the encoder's codes, or the sorted-category codes without an encoder. */
  function EncodeColumn(encoders: map<string, seq<string>>, col: string, cells: seq<Cell>, floatRepr: real -> string)
    : (r: Result<seq<Cell>, string>)
    ensures r.Err? ==> r.error == LabelCodec.UnseenLabels
    ensures r.Ok? ==> |r.value| == |cells|
  {
    var texts := CellTexts(cells, floatRepr);
    if col in encoders then
      match LabelCodec.Transform(encoders[col], ReplaceUnseen(encoders[col], texts))
      case Err(e) => Err(e)
      case Ok(codes) => Ok(seq(|codes|, i requires 0 <= i < |codes| => Num(codes[i] as real)))
    else
      Ok(seq(|texts|, i requires 0 <= i < |texts| => Num(CategoryCode(texts, texts[i]) as real)))
  }

  /**
   * With an encoder that knows at least one class, encoding never fails: a
   * known label gets its own class index and any other label the index 0 of
   * the first class.
   */
  lemma UnseenBecomesFirstClass(
    encoders: map<string, seq<string>>, col: string, cells: seq<Cell>, floatRepr: real -> string, i: nat)
    requires col in encoders && |encoders[col]| > 0 && i < |cells|
    ensures EncodeColumn(encoders, col, cells, floatRepr).Ok?
    ensures |EncodeColumn(encoders, col, cells, floatRepr).value| == |cells|
    ensures var t := AsText(cells[i], floatRepr);
      EncodeColumn(encoders, col, cells, floatRepr).value[i]
        == Num(if t in encoders[col] then LabelCodec.IndexOf(encoders[col], t) as real else 0.0)
  {
    var classes := encoders[col];
    var vals := ReplaceUnseen(classes, CellTexts(cells, floatRepr));
    assert forall k :: 0 <= k < |vals| ==> vals[k] in classes;
    assert LabelCodec.IndexOf(classes, classes[0]) == 0;
  }

  /** An encoder with no classes rejects every nonempty column. */
  lemma EmptyEncoderFails(encoders: map<string, seq<string>>, col: string, cells: seq<Cell>, floatRepr: real -> string)
    requires col in encoders && encoders[col] == [] && |cells| > 0
    ensures EncodeColumn(encoders, col, cells, floatRepr) == Err(LabelCodec.UnseenLabels)
  {
    assert CellTexts(cells, floatRepr)[0] !in encoders[col];
  }

  /** The column is numeric, or its encoding succeeds. */
  predicate ColumnEncodes(encoders: map<string, seq<string>>, col: string, cells: seq<Cell>, floatRepr: real -> string) {
    !IsCategorical(cells) || EncodeColumn(encoders, col, cells, floatRepr).Ok?
  }

  predicate EncodeFails(encoders: map<string, seq<string>>, y: Frame, floatRepr: real -> string) {
    exists c :: c in y.data && !ColumnEncodes(encoders, c, y.data[c], floatRepr)
  }

  /** A column after the encoding step: its codes when it is categorical, its cells otherwise. */
  function Encoded(encoders: map<string, seq<string>>, col: string, cells: seq<Cell>, floatRepr: real -> string)
    : (out: seq<Cell>)
  {
    if IsCategorical(cells) then
      match EncodeColumn(encoders, col, cells, floatRepr)
      case Ok(codes) => codes
      case Err(_) => cells
    else cells
  }

  /**
   * `_handle_missing_and_encode(X, fit=False)`: placeholders become missing,
   * then every categorical column is replaced by its codes; numeric columns
   * keep their cells.
   */
  function Handled(encoders: map<string, seq<string>>, x: Frame, floatRepr: real -> string): (r: Result<Frame, string>) {
    EncodedFrame(encoders, Replaced(x), floatRepr)
  }

  /** The encoding step on a frame whose placeholders are already replaced. */
  function EncodedFrame(encoders: map<string, seq<string>>, y: Frame, floatRepr: real -> string): (r: Result<Frame, string>) {
    if EncodeFails(encoders, y, floatRepr) then Err(LabelCodec.UnseenLabels)
    else
      Ok(y.(data := map c | c in y.data :: Encoded(encoders, c, y.data[c], floatRepr)))
  }

  /** `_handle_missing_and_encode`: replace the placeholders of a copy, then encode its columns. */
  method HandleMissingAndEncode(encoders: map<string, seq<string>>, x: Frame, floatRepr: real -> string)
    returns (r: Result<Frame, string>)
    requires WellFormed(x)
    ensures r == Handled(encoders, x, floatRepr)
  {
    r := EncodeCategoricals(encoders, Replaced(x), floatRepr);
  }

  /** The column loop, overwriting each categorical column in turn; the first failure aborts. */
  method EncodeCategoricals(encoders: map<string, seq<string>>, y: Frame, floatRepr: real -> string)
    returns (r: Result<Frame, string>)
    requires WellFormed(y)
    ensures r == EncodedFrame(encoders, y, floatRepr)
  {
    var data := y.data;
    ghost var done: set<string> := {};
    var i := 0;
    while i < |y.columns|
      invariant 0 <= i <= |y.columns|
      invariant data.Keys == y.data.Keys
      invariant forall k :: 0 <= k < i ==> y.columns[k] in done
      invariant forall c :: c in done ==> c in y.data
      invariant forall c :: c in done ==> ColumnEncodes(encoders, c, y.data[c], floatRepr)
      invariant forall c :: c in data ==> data[c] == if c in done then Encoded(encoders, c, y.data[c], floatRepr) else y.data[c]
    {
      var col := y.columns[i];
      if !ColumnEncodes(encoders, col, y.data[col], floatRepr) {
        EncodeFailure(encoders, y, floatRepr, col);
        return Err(LabelCodec.UnseenLabels);
      }
      data := data[col := Encoded(encoders, col, y.data[col], floatRepr)];
      done := done + {col};
      i := i + 1;
    }
    assert forall c :: c in y.data ==> c in done;
    EncodeSuccess(encoders, y, floatRepr, data);
    r := Ok(y.(data := data));
  }

  lemma EncodeFailure(encoders: map<string, seq<string>>, y: Frame, floatRepr: real -> string, col: string)
    requires col in y.data && !ColumnEncodes(encoders, col, y.data[col], floatRepr)
    ensures EncodedFrame(encoders, y, floatRepr) == Err(LabelCodec.UnseenLabels)
  {
    assert EncodeFails(encoders, y, floatRepr);
  }

  lemma EncodeSuccess(encoders: map<string, seq<string>>, y: Frame, floatRepr: real -> string, data: map<string, seq<Cell>>)
    requires data.Keys == y.data.Keys
    requires forall c :: c in data ==> ColumnEncodes(encoders, c, y.data[c], floatRepr)
    requires forall c :: c in data ==> data[c] == Encoded(encoders, c, y.data[c], floatRepr)
    ensures EncodedFrame(encoders, y, floatRepr) == Ok(y.(data := data))
  {
    assert !EncodeFails(encoders, y, floatRepr);
    assert data == map c | c in y.data :: Encoded(encoders, c, y.data[c], floatRepr);
  }

  /** A successful encoding leaves no text in the frame. */
  lemma HandledHasNoText(encoders: map<string, seq<string>>, x: Frame, floatRepr: real -> string, c: string, i: nat)
    requires Handled(encoders, x, floatRepr).Ok?
    requires c in Handled(encoders, x, floatRepr).value.data && i < |Handled(encoders, x, floatRepr).value.data[c]|
    ensures !Handled(encoders, x, floatRepr).value.data[c][i].Str?
  {
    var y := Replaced(x);
    if IsCategorical(y.data[c]) {
      var texts := CellTexts(y.data[c], floatRepr);
      if c in encoders {
        var codes := LabelCodec.Transform(encoders[c], ReplaceUnseen(encoders[c], texts));
        assert codes.Ok?;
      }
    }
  }

  // ---------------------------------------------------------------------
  // Schema alignment
  // ---------------------------------------------------------------------

  /** `_ensure_columns`: the input unchanged without a schema, else exactly the schema's columns. */
  function Ensured(expected: Option<seq<string>>, x: Frame): (y: Frame) {
    match expected
    case None => x
    case Some(cols) =>
      Frame(cols, map c | c in cols :: if c in x.data then x.data[c] else MissingColumn(x.height), x.height)
  }

  /** The loop of `_ensure_columns`: append each absent schema column as NaN, then select the schema. */
  method EnsureColumns(expected: Option<seq<string>>, x: Frame) returns (y: Frame)
    ensures y == Ensured(expected, x)
  {
    if expected.None? {
      return x;
    }
    var cols := expected.value;
    var data := x.data;
    var i := 0;
    while i < |cols|
      invariant 0 <= i <= |cols|
      invariant x.data.Keys <= data.Keys
      invariant forall k :: 0 <= k < i ==> cols[k] in data
      invariant forall c :: c in data ==> data[c] == if c in x.data then x.data[c] else MissingColumn(x.height)
    {
      var col := cols[i];
      if col !in data {
        data := data[col := MissingColumn(x.height)];
      }
      i := i + 1;
    }
    y := Frame(cols, map c | c in cols :: data[c], x.height);
  }

  /**
   * With a schema, the ensured frame has exactly the schema's columns in order;
   * a schema column present in the input keeps its cells, an absent one is all
   * missing, and input columns outside the schema are gone.
   */
  lemma EnsuredMeaning(cols: seq<string>, x: Frame)
    requires WellFormed(x) && Distinct(cols)
    ensures var y := Ensured(Some(cols), x);
      && WellFormed(y) && y.columns == cols && y.height == x.height
      && (forall c :: c in cols && c in x.data ==> y.data[c] == x.data[c])
      && (forall c :: c in cols && c !in x.data ==> y.data[c] == MissingColumn(x.height))
      && (forall c :: c in x.data && c !in cols ==> c !in y.data)
  {
  }

  /** Aligning an already aligned frame changes nothing. */
  lemma EnsuredIdempotent(expected: Option<seq<string>>, x: Frame)
    requires WellFormed(x)
    ensures Ensured(expected, Ensured(expected, x)) == Ensured(expected, x)
  {
    if expected.Some? {
      var y := Ensured(expected, x);
      assert Ensured(expected, y).data == y.data;
    }
  }

  // ---------------------------------------------------------------------
  // The preprocessor object
  // ---------------------------------------------------------------------

  /** What the artifact files deserialise to; `None` where the file is absent. */
  datatype Artifacts = Artifacts(
    stage1Scaler: Option<Frame -> Result<Matrix, string>>,
    stage2Scaler: Option<Frame -> Result<Matrix, string>>,
    stage1Imputer: Option<Frame -> Result<Frame, string>>,
    stage2Imputer: Option<Frame -> Result<Frame, string>>,
    labelEncoders: Option<map<string, seq<string>>>,
    expectedColumns: Option<seq<string>>)

  /**
   * Imputes, then scales. A component that is not there raises the `NoneType`
   * error when its turn comes; a fitted transform may raise its own error (a
   * frame whose width or column names differ from the fitted ones, or an
   * imputed array that no longer fits the input's column list).
   */
  function Pipeline(imputer: Option<Frame -> Result<Frame, string>>, scaler: Option<Frame -> Result<Matrix, string>>, h: Frame)
    : (r: Result<Matrix, string>)
  {
    if imputer.None? then Err(NotFitted)
    else
      match imputer.value(h)
      case Err(e) => Err(e)
      case Ok(imputed) =>
        if scaler.None? then Err(NotFitted) else scaler.value(imputed)
  }

  class DataPreprocessor {
    var stage1Scaler: Option<Frame -> Result<Matrix, string>>
    var stage2Scaler: Option<Frame -> Result<Matrix, string>>
    var labelEncoders: map<string, seq<string>>
    var stage1Imputer: Option<Frame -> Result<Frame, string>>
    var stage2Imputer: Option<Frame -> Result<Frame, string>>
    var expectedColumns: Option<seq<string>>

    /** The schema, when there is one, names each column once (it is a frame's column list). */
    ghost predicate Valid()
      reads this
    {
      expectedColumns.Some? ==> Distinct(expectedColumns.value)
    }

    constructor ()
      ensures Valid()
      ensures stage1Scaler == None && stage2Scaler == None && labelEncoders == map[]
      ensures stage1Imputer == None && stage2Imputer == None && expectedColumns == None
    {
      stage1Scaler := None;
      stage2Scaler := None;
      labelEncoders := map[];
      stage1Imputer := None;
      stage2Imputer := None;
      expectedColumns := None;
    }

    /** `load_preprocessors`: every artifact that exists replaces its field; the others are kept. */
    method LoadPreprocessors(a: Artifacts)
      requires Valid()
      requires a.expectedColumns.Some? ==> Distinct(a.expectedColumns.value)
      modifies this
      ensures Valid()
      ensures stage1Scaler == (if a.stage1Scaler.Some? then a.stage1Scaler else old(stage1Scaler))
      ensures stage2Scaler == (if a.stage2Scaler.Some? then a.stage2Scaler else old(stage2Scaler))
      ensures stage1Imputer == (if a.stage1Imputer.Some? then a.stage1Imputer else old(stage1Imputer))
      ensures stage2Imputer == (if a.stage2Imputer.Some? then a.stage2Imputer else old(stage2Imputer))
      ensures labelEncoders == a.labelEncoders.GetOr(old(labelEncoders))
      ensures expectedColumns == (if a.expectedColumns.Some? then a.expectedColumns else old(expectedColumns))
    {
      stage1Scaler := if a.stage1Scaler.Some? then a.stage1Scaler else stage1Scaler;
      stage2Scaler := if a.stage2Scaler.Some? then a.stage2Scaler else stage2Scaler;
      stage1Imputer := if a.stage1Imputer.Some? then a.stage1Imputer else stage1Imputer;
      stage2Imputer := if a.stage2Imputer.Some? then a.stage2Imputer else stage2Imputer;
      labelEncoders := a.labelEncoders.GetOr(labelEncoders);
      expectedColumns := if a.expectedColumns.Some? then a.expectedColumns else expectedColumns;
    }

    /** `is_loaded`: the stage-1 scaler and imputer are both present. */
    predicate IsLoaded()
      reads this
    {
      stage1Scaler.Some? && stage1Imputer.Some?
    }

    /** What `preprocess(X, stage)` returns, or the error it raises. */
    function Preprocessed(x: Frame, stage: string, floatRepr: real -> string): (r: Result<Matrix, string>)
      reads this
    {
      if stage != "stage1" && stage != "stage2" then Err(BadStage)
      else
        match Handled(labelEncoders, Ensured(expectedColumns, x), floatRepr)
        case Err(e) => Err(e)
        case Ok(h) =>
          if stage == "stage1" then Pipeline(stage1Imputer, stage1Scaler, h)
          else Pipeline(stage2Imputer, stage2Scaler, h)
    }

    method Preprocess(x: Frame, stage: string, floatRepr: real -> string) returns (r: Result<Matrix, string>)
      requires Valid() && WellFormed(x)
      ensures r == Preprocessed(x, stage, floatRepr)
    {
      if stage != "stage1" && stage != "stage2" {
        return Err(BadStage);
      }
      var aligned := EnsureColumns(expectedColumns, x);
      if expectedColumns.Some? {
        EnsuredMeaning(expectedColumns.value, x);
      }
      var h := HandleMissingAndEncode(labelEncoders, aligned, floatRepr);
      if h.Err? {
        return Err(h.error);
      }
      if stage == "stage1" {
        r := Pipeline(stage1Imputer, stage1Scaler, h.value);
      } else {
        r := Pipeline(stage2Imputer, stage2Scaler, h.value);
      }
    }

    /** The imputer and the scaler `preprocess` uses for `stage`. */
    function ImputerOf(stage: string): (imputer: Option<Frame -> Result<Frame, string>>)
      reads this
    {
      if stage == "stage1" then stage1Imputer else stage2Imputer
    }

    function ScalerOf(stage: string): (scaler: Option<Frame -> Result<Matrix, string>>)
      reads this
    {
      if stage == "stage1" then stage1Scaler else stage2Scaler
    }

    /**
     * A stage other than "stage1" and "stage2" raises the stage error. For
     * either stage, preprocessing fails only through the label encoders,
     * with the `NoneType` error of a component that is not loaded, or with the
     * imputer's or the scaler's own error, and succeeds with the scaled frame
     * when both components are loaded and neither raises. Without the stage-1
     * components, stage 1 raises the `NoneType` error unless the imputer has
     * raised first.
     */
    lemma PreprocessDispatch(x: Frame, stage: string, floatRepr: real -> string)
      ensures (stage != "stage1" && stage != "stage2") ==> Preprocessed(x, stage, floatRepr) == Err(BadStage)
      ensures var h := Handled(labelEncoders, Ensured(expectedColumns, x), floatRepr);
        var imp := ImputerOf(stage);
        var sc := ScalerOf(stage);
        (stage == "stage1" || stage == "stage2") && Preprocessed(x, stage, floatRepr).Err? ==>
          var e := Preprocessed(x, stage, floatRepr).error;
          || (h.Err? && e == LabelCodec.UnseenLabels)
          || (h.Ok? && e == NotFitted && (imp.None? || (imp.value(h.value).Ok? && sc.None?)))
          || (h.Ok? && imp.Some? && imp.value(h.value) == Err(e))
          || (h.Ok? && imp.Some? && imp.value(h.value).Ok? && sc.Some? && sc.value(imp.value(h.value).value) == Err(e))
      ensures var h := Handled(labelEncoders, Ensured(expectedColumns, x), floatRepr);
        var imp := ImputerOf(stage);
        var sc := ScalerOf(stage);
        (stage == "stage1" || stage == "stage2") && h.Ok? && imp.Some? && sc.Some? && imp.value(h.value).Ok? ==>
          Preprocessed(x, stage, floatRepr) == sc.value(imp.value(h.value).value)
      ensures var h := Handled(labelEncoders, Ensured(expectedColumns, x), floatRepr);
        !IsLoaded() && h.Ok? && (stage1Imputer.None? || stage1Imputer.value(h.value).Ok?) ==>
          Preprocessed(x, "stage1", floatRepr) == Err(NotFitted)
    {
    }
  }
}
