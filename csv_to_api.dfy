/**
 * The batch client script: it reads a CSV export, prepares one request per
 * row for the fraud service's batch endpoint, and pulls the 0/1 predictions
 * out of whatever the endpoint answers. Reading the CSV and the median file,
 * the HTTP call and writing the output CSV are outside the model: the
 * parsed frame, the medians and the parsed response are parameters.
 */
module CsvToApi {
  import opened Wrappers
  import opened Frames
  import opened Json
  import FraudApi
  import Prediction

  /** The features the service was trained on, in the order every payload record lists them. */
  const ExpectedFeatureColumns: seq<string> := [
    "ACCT_AGE", "LIMIT", "OUTS", "ACCT_RESIDUAL_TENURE", "LOAN_TENURE", "INSTALAMT", "SI_FLG",
    "AGE", "VINTAGE", "KYC_SCR", "LOCKER_HLDR_IND", "UID_FLG", "KYC_FLG", "INB_FLG", "EKYC_FLG",
    "ONEMNTHCR", "ONEMNTHSDR", "ONEMNTHOUTSTANGBAL", "ONEMNTHAVGMTD", "ONEMNTHAVGQTD",
    "ONEMNTHAVGYTD", "TWOMNTHSCR", "TWOMNTHSDR", "TWOMNTHOUTSTANGBAL", "TWOMNTHAVGMTD",
    "TWOMNTHAVGQTD", "TWOMNTHAVGYTD", "THREEMNTHSCR", "THREEMNTHSDR", "THREEMNTHOUTSTANGBAL",
    "THREEMNTHAVGMTD", "THREEMNTHAVGQTD", "THREEMNTHAVGYTD", "FOURMNTHSCR", "FOURMNTHSDR",
    "FOURMNTHOUTSTANGBAL", "FOURMNTHAVGMTD", "FOURMNTHAVGQTD", "FOURMNTHAVGYTD", "FIVEMNTHSCR",
    "FIVEMNTHSDR", "FIVEMNTHOUTSTANGBAL", "FIVEMNTHAVGMTD", "FIVEMNTHAVGQTD", "FIVEMNTHAVGYTD",
    "SIXMNTHSCR", "SIXMNTHSDR", "SIXMNTHOUTSTANGBAL", "SIXMNTHAVGMTD", "SIXMNTHAVGQTD",
    "SIXMNTHAVGYTD", "SEVENMNTHSCR", "SEVENMNTHSDR", "SEVENMNTHOUTSTANGBAL", "SEVENMNTHAVGMTD",
    "SEVENMNTHAVGQTD", "SEVENMNTHAVGYTD", "EIGHTMNTHSCR", "EIGHTMNTHSDR", "EIGHTMNTHOUTSTANGBAL",
    "EIGHTMNTHAVGMTD", "EIGHTMNTHAVGQTD", "EIGHTMNTHAVGYTD", "NINEMNTHSCR", "NINEMNTHSDR",
    "NINEMNTHOUTSTANGBAL", "NINEMNTHAVGMTD", "NINEMNTHAVGQTD", "NINEMNTHAVGYTD", "TENMNTHSCR",
    "TENMNTHSDR", "TENMNTHOUTSTANGBAL", "TENMNTHAVGMTD", "TENMNTHAVGQTD", "TENMNTHAVGYTD",
    "ELEVENMNTHSCR", "ELEVENMNTHSDR", "ELEVENMNTHOUTSTANGBAL", "ELEVENMNTHAVGMTD",
    "ELEVENMNTHAVGQTD", "ELEVENMNTHAVGYTD", "TWELVEMNTHSCR", "TWELVEMNTHSDR",
    "TWELVEMNTHOUTSTANGBAL", "TWELVEMNTHAVGMTD", "TWELVEMNTHAVGQTD", "TWELVEMNTHAVGYTD", "NO_LONS",
    "ALL_LON_LIMIT", "ALL_LON_OUTS", "ALL_LON_MAX_IRAC", "OLDEST_LON_TAKEN", "LATEST_LON_TAKEN",
    "LATEST_RESIDUAL_TENURE", "OLDEST_RESIDUAL_TENURE", "POP_CODE", "NO_ENQ", "FIRST_NPA_TENURE",
    "CUST_NO_OF_TIMES_NPA", "LATEST_NPA_TENURE", "NO_YRS_NPA", "LATEST_RG3_TENURE", "NO_YRS_RG3",
    "TOT_IRAC_CHNG", "TIMES_IRAC_SLIP", "TIMES_IRAC_UPR", "LAST_1_YR_RG4", "LAST_3_YR_RG4",
    "LAST_1_YR_RG3", "LAST_1_YR_RG2", "LAST_1_YR_RG1", "CRIFF_11", "CRIFF_22", "CRIFF_33",
    "CRIFF_44", "CRIFF_55", "CRIFF_66", "TOTAL_CRIFF1", "DEC_CRIFFCHNG1", "PRI_NO_OF_ACCTS1",
    "PRI_ACTIVE_ACCTS1", "PRI_OVERDUE_ACCTS1", "PRI_CURRENT_BALANCE1", "PRI_SANCTIONED_AMOUNT1",
    "PRI_DISBURSED_AMOUNT1", "PRIMARY_INSTAL_AMT1", "NEW_ACCTS_IN_LAST_SIX_MONTHS1",
    "DELINQUENT_ACCTS_IN_LAST_SIX_MONTHS1", "AVERAGE_ACCT_AGE1", "CREDIT_HISTORY_LENGTH1",
    "NO_OF_INQUIRIES1", "INCOME_BAND1", "AGREG_GROUP", "PRODUCT_TYPE", "LATEST_CR_DAYS",
    "LATEST_DR_DAYS", "TIME_PERIOD"
  ]

  // ---------------------------------------------------------------------
  // Payload builder
  // ---------------------------------------------------------------------

  function DropInfinite(cells: seq<Cell>): (r: seq<Cell>)
    ensures |r| == |cells|
  {
    seq(|cells|, i requires 0 <= i < |cells| => if cells[i].Inf? then Missing else cells[i])
  }

  /** `df.replace([np.inf, -np.inf], np.nan)`. */
  function InfinitiesRemoved(x: Frame): (y: Frame)
    ensures y.columns == x.columns && y.height == x.height && y.data.Keys == x.data.Keys
    ensures WellFormed(x) ==> WellFormed(y)
  {
    x.(data := map c | c in x.data :: DropInfinite(x.data[c]))
  }

  function FillMissing(cells: seq<Cell>, median: real): (r: seq<Cell>)
    ensures |r| == |cells|
  {
    seq(|cells|, i requires 0 <= i < |cells| => if cells[i].Missing? then Num(median) else cells[i])
  }

  /** Every column that has a median gets its missing cells filled with it. */
  function Filled(x: Frame, medians: map<string, real>): (y: Frame)
    ensures y.columns == x.columns && y.height == x.height && y.data.Keys == x.data.Keys
    ensures WellFormed(x) ==> WellFormed(y)
  {
    x.(data := map c | c in x.data :: if c in medians then FillMissing(x.data[c], medians[c]) else x.data[c])
  }

  /** The loop over the medians' index, filling each column the frame has. */
  method FillMedians(x: Frame, medians: map<string, real>) returns (y: Frame)
    ensures y == Filled(x, medians)
  {
    var data := x.data;
    var remaining := medians.Keys;
    while remaining != {}
      invariant remaining <= medians.Keys
      invariant data.Keys == x.data.Keys
      invariant forall c :: c in data ==>
        data[c] == if c in medians && c !in remaining then FillMissing(x.data[c], medians[c]) else x.data[c]
      decreases remaining
    {
      var col :| col in remaining;
      if col in data {
        data := data[col := FillMissing(x.data[col], medians[col])];
      }
      remaining := remaining - {col};
    }
    y := x.(data := data);
  }

  /** `set(EXPECTED_FEATURE_COLUMNS) - set(df.columns)`. */
  function MissingColumns(x: Frame, expected: seq<string>): (missing: set<string>) {
    set c | c in expected && c !in x.data
  }

  /** Row `i` of the frame restricted to `expected`, as `to_dict(orient="records")` gives it. */
  function Record(x: Frame, expected: seq<string>, i: nat): (r: seq<(string, Cell)>)
    requires WellFormed(x) && MissingColumns(x, expected) == {} && i < x.height
    ensures |r| == |expected|
  {
    seq(|expected|, k requires 0 <= k < |expected| =>
      assert expected[k] !in MissingColumns(x, expected);
      (expected[k], x.data[expected[k]][i]))
  }

  /** The frame after both cleaning steps. */
  function Cleaned(x: Frame, medians: map<string, real>): (y: Frame)
    ensures WellFormed(x) ==> WellFormed(y)
    ensures y.height == x.height && y.data.Keys == x.data.Keys
  {
    Filled(InfinitiesRemoved(x), medians)
  }

  /** What `load_and_prepare_data` returns, or the set of missing columns it complains about. */
  function Payload(x: Frame, medians: map<string, real>, expected: seq<string>)
    : (r: Result<seq<FraudApi.PredictionRequest>, set<string>>)
    requires WellFormed(x)
  {
    var y := Cleaned(x, medians);
    if MissingColumns(y, expected) != {} then Err(MissingColumns(y, expected))
    else Ok(seq(y.height, i requires 0 <= i < y.height => FraudApi.PredictionRequest(Record(y, expected, i))))
  }

  method LoadAndPrepareData(x: Frame, medians: map<string, real>)
    returns (r: Result<seq<FraudApi.PredictionRequest>, set<string>>)
    requires WellFormed(x)
    ensures r == Payload(x, medians, ExpectedFeatureColumns)
  {
    var df := InfinitiesRemoved(x);
    df := FillMedians(df, medians);
    var missing := MissingColumns(df, ExpectedFeatureColumns);
    if missing != {} {
      return Err(missing);
    }
    r := Ok(seq(df.height, i requires 0 <= i < df.height => FraudApi.PredictionRequest(Record(df, ExpectedFeatureColumns, i))));
  }

  /**
   * The payload is rejected exactly when some expected column is absent from
   * the CSV, and the complaint names exactly those columns.
   */
  lemma MissingColumnsRejected(x: Frame, medians: map<string, real>, expected: seq<string>)
    requires WellFormed(x)
    ensures Payload(x, medians, expected).Err? <==> exists c :: c in expected && c !in x.data
    ensures Payload(x, medians, expected).Err? ==>
      forall c :: c in Payload(x, medians, expected).error <==> c in expected && c !in x.data
  {
    var y := Cleaned(x, medians);
    if exists c :: c in expected && c !in x.data {
      var c :| c in expected && c !in x.data;
      assert c in MissingColumns(y, expected);
    }
  }

  /**
   * One request per CSV row, in row order; each record lists exactly the
   * expected columns in their order, with the row's cell after cleaning: an
   * infinite or missing cell becomes the column's median when it has one and
   * stays missing otherwise, and every other cell is passed on unchanged.
   */
  lemma PayloadMeaning(x: Frame, medians: map<string, real>, expected: seq<string>, i: nat, k: nat)
    requires WellFormed(x) && Payload(x, medians, expected).Ok?
    requires i < x.height && k < |expected|
    ensures |Payload(x, medians, expected).value| == x.height
    ensures var rec := Payload(x, medians, expected).value[i].data;
      var c := expected[k];
      && |rec| == |expected| && c in x.data && rec[k].0 == c
      && (x.data[c][i].Inf? || x.data[c][i].Missing? ==> rec[k].1 == if c in medians then Num(medians[c]) else Missing)
      && (!x.data[c][i].Inf? && !x.data[c][i].Missing? ==> rec[k].1 == x.data[c][i])
  {
    var y := Cleaned(x, medians);
    assert expected[k] !in MissingColumns(y, expected);
  }

  // ---------------------------------------------------------------------
  // Prediction extractor
  // ---------------------------------------------------------------------

  /** The keys tried, in order, on each item of the response. */
  const PredictionKeys: seq<string> := ["prediction", "pred", "output", "label", "result"]

  /** The value of the first of `keys` that the object has. */
  function FirstKnown(fields: seq<(string, Json)>, keys: seq<string>): (r: Option<Json>)
    ensures r.None? <==> forall k :: 0 <= k < |keys| ==> !HasKey(fields, keys[k])
  {
    if keys == [] then None
    else if HasKey(fields, keys[0]) then Get(fields, keys[0])
    else
      var r := FirstKnown(fields, keys[1..]);
      assert forall k :: 1 <= k < |keys| ==> keys[k] == keys[1..][k - 1];
      r
  }

  /** The first known key present decides: no earlier key is present, and its value is taken. */
  lemma {:induction false} FirstKnownPriority(fields: seq<(string, Json)>, keys: seq<string>)
    requires FirstKnown(fields, keys).Some?
    ensures exists k :: (0 <= k < |keys|
      && (forall j :: 0 <= j < k ==> !HasKey(fields, keys[j]))
      && Get(fields, keys[k]) == FirstKnown(fields, keys))
  {
    if !HasKey(fields, keys[0]) {
      FirstKnownPriority(fields, keys[1..]);
      var k :| 0 <= k < |keys[1..]|
        && (forall j :: 0 <= j < k ==> !HasKey(fields, keys[1..][j]))
        && Get(fields, keys[1..][k]) == FirstKnown(fields, keys[1..]);
      assert forall j :: 0 <= j < k + 1 ==> !HasKey(fields, keys[j]) by {
        forall j | 0 < j < k + 1 ensures !HasKey(fields, keys[j]) {
          assert keys[j] == keys[1..][j - 1];
        }
      }
      assert keys[k + 1] == keys[1..][k];
    } else {
      assert Get(fields, keys[0]) == FirstKnown(fields, keys);
    }
  }

  /** What one response item contributes: `None` for an empty object. */
  function ItemPrediction(item: Json): (p: Option<Json>) {
    match item
    case JObject(fields) =>
      (match FirstKnown(fields, PredictionKeys)
       case Some(v) => Some(v)
       case None => if |fields| > 0 then Some(fields[0].1) else None)
    case _ => Some(item)
  }

  function ItemPredictions(items: seq<Json>): (ps: seq<Json>) {
    if items == [] then []
    else
      var init := ItemPredictions(items[..|items| - 1]);
      match ItemPrediction(items[|items| - 1])
      case Some(v) => init + [v]
      case None => init
  }

  /** What the extraction in `main` collects; `None` when the response is not a list. */
  function Extracted(results: Json): (r: Option<seq<Json>>) {
    match results
    case JArray(items) => Some(ItemPredictions(items))
    case _ => None
  }

  /** The extraction loop of `main`: an inner loop over the known keys with a for-else fallback. */
  method ExtractPredictions(results: Json) returns (r: Option<seq<Json>>)
    ensures r == Extracted(results)
  {
    if !results.JArray? {
      return None;
    }
    var items := results.items;
    var predictions: seq<Json> := [];
    var i := 0;
    while i < |items|
      invariant 0 <= i <= |items|
      invariant predictions == ItemPredictions(items[..i])
    {
      assert items[..i + 1][..i] == items[..i];
      var item := items[i];
      if item.JObject? {
        var k := 0;
        var found := false;
        while k < |PredictionKeys| && !found
          invariant 0 <= k <= |PredictionKeys|
          invariant !found ==> FirstKnown(item.fields, PredictionKeys) == FirstKnown(item.fields, PredictionKeys[k..])
          invariant found ==> predictions == ItemPredictions(items[..i + 1])
          invariant !found ==> predictions == ItemPredictions(items[..i])
        {
          var key := PredictionKeys[k];
          var v := Get(item.fields, key);
          if v.Some? {
            predictions := predictions + [v.value];
            found := true;
          } else {
            assert PredictionKeys[k..][1..] == PredictionKeys[k + 1..];
          }
          k := k + 1;
        }
        if !found {
          assert PredictionKeys[k..] == [];
          if |item.fields| > 0 {
            predictions := predictions + [item.fields[0].1];
          }
        }
      } else {
        predictions := predictions + [item];
      }
      i := i + 1;
    }
    assert items[..i] == items;
    r := Some(predictions);
  }

  /**
   * When every item contributes (no empty objects), the predictions are one
   * per item, in item order.
   */
  lemma {:induction false} ItemPredictionsMeaning(items: seq<Json>)
    ensures |ItemPredictions(items)| <= |items|
    ensures (forall i :: 0 <= i < |items| ==> ItemPrediction(items[i]).Some?) ==>
      |ItemPredictions(items)| == |items|
      && forall i :: 0 <= i < |items| ==> ItemPredictions(items)[i] == ItemPrediction(items[i]).value
  {
    if items != [] {
      var init := items[..|items| - 1];
      ItemPredictionsMeaning(init);
      assert forall i :: 0 <= i < |init| ==> init[i] == items[i];
    }
  }

  /** The batch endpoint answers with an object, which the extraction rejects outright. */
  lemma BatchEnvelopeRejected(b: FraudApi.BatchResponse)
    ensures Extracted(FraudApi.BatchResponseJson(b)) == None
  {
  }

  /** The extraction the script evidently intends: unwrap the batch envelope's "predictions" list first. */
  function ExtractFromResponse(results: Json): (r: Option<seq<Json>>) {
    match results
    case JObject(fields) =>
      (match Get(fields, "predictions")
       case Some(JArray(items)) => Some(ItemPredictions(items))
       case _ => None)
    case _ => Extracted(results)
  }

  /** A predictor result object yields its "prediction" field, the first known key it has. */
  lemma ResultJsonPrediction(res: Prediction.PredictionResult)
    ensures ItemPrediction(FraudApi.ResultJson(res)) == Some(JNum(res.prediction as real))
  {
    var fields := FraudApi.ResultJson(res).fields;
    assert |fields[0].0| != |"prediction"| && |fields[1].0| != |"prediction"|;
    ThirdField(fields, "prediction");
    FirstKeyFound(fields, PredictionKeys);
  }

  lemma ThirdField(fields: seq<(string, Json)>, key: string)
    requires |fields| >= 3 && fields[0].0 != key && fields[1].0 != key && fields[2].0 == key
    ensures Get(fields, key) == Some(fields[2].1)
  {
    var rest := fields[1..];
    assert rest[0] == fields[1] && rest[1..] == fields[2..];
    assert fields[2..][0] == fields[2];
    assert Get(fields[2..], key) == Some(fields[2].1);
    assert Get(rest, key) == Get(fields[2..], key);
  }

  lemma FirstKeyFound(fields: seq<(string, Json)>, keys: seq<string>)
    requires keys != [] && Get(fields, keys[0]).Some?
    ensures FirstKnown(fields, keys) == Get(fields, keys[0])
  {
  }

  /** From a batch answer the corrected extraction reads each request's prediction, in order. */
  lemma CorrectedReadsBatchResponse(b: FraudApi.BatchResponse)
    ensures ExtractFromResponse(FraudApi.BatchResponseJson(b))
      == Some(seq(|b.predictions|, i requires 0 <= i < |b.predictions| => JNum(b.predictions[i].prediction as real)))
  {
    var items := seq(|b.predictions|, i requires 0 <= i < |b.predictions| => FraudApi.ResultJson(b.predictions[i]));
    assert Get(FraudApi.BatchResponseJson(b).fields, "predictions") == Some(JArray(items));
    forall i | 0 <= i < |items|
      ensures ItemPrediction(items[i]) == Some(JNum(b.predictions[i].prediction as real))
    {
      ResultJsonPrediction(b.predictions[i]);
    }
    ItemPredictionsMeaning(items);
    var expected := seq(|b.predictions|, i requires 0 <= i < |b.predictions| => JNum(b.predictions[i].prediction as real));
    assert ItemPredictions(items) == expected;
  }

  /**
   * End to end: when every request succeeds on its own, the corrected
   * extraction pairs CSV row i with the prediction made for row i.
   */
  lemma RowsKeepTheirPredictions(svc: FraudApi.Service, reqs: seq<FraudApi.PredictionRequest>, elapsedMs: real, now: string)
    requires forall i :: 0 <= i < |reqs| ==> FraudApi.Outcome(svc, reqs[i]).Ok?
    ensures FraudApi.BatchAnswer(FraudApi.Collect(FraudApi.Outcomes(svc, reqs)), |reqs|, elapsedMs, now).Ok?
    ensures var b := FraudApi.BatchAnswer(FraudApi.Collect(FraudApi.Outcomes(svc, reqs)), |reqs|, elapsedMs, now).value;
      var ps := ExtractFromResponse(FraudApi.BatchResponseJson(b));
      && ps.Some? && |ps.value| == |reqs|
      && forall i :: 0 <= i < |reqs| ==> ps.value[i] == JNum(FraudApi.Outcome(svc, reqs[i]).value.prediction as real)
  {
    FraudApi.BatchMeaning(svc, reqs, elapsedMs, now);
    var b := FraudApi.BatchAnswer(FraudApi.Collect(FraudApi.Outcomes(svc, reqs)), |reqs|, elapsedMs, now).value;
    CorrectedReadsBatchResponse(b);
  }
}
