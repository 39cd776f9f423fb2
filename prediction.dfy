/**
 * The two-stage fraud predictor: a stage-1 gradient-boosted classifier screens
 * every transaction, and only transactions it flags are scored by seven
 * stage-2 base models whose probabilities feed a logistic meta-model.
 *
 * The fitted models themselves are opaque: a `Classifier` is its input width
 * and the probability of class 1 it assigns to a row.
 */
module Prediction {
  import opened Wrappers
  import opened Frames
  import Texts
  import opened Sets
  import LabelCodec

  /** A fitted binary classifier: how many features it expects and P(class 1) for a row. */
  datatype Classifier = Classifier(nFeatures: nat, proba: seq<real> -> real)

  /**
   * The error a fitted model raises when a row has the wrong number of
   * features. The text follows scikit-learn's wording and is a tag for this
   * error; XGBoost and the other libraries word it differently.
   */
  function FeatureMismatch(got: nat, want: nat): (msg: string) {
    "X has " + Texts.NatToString(got) + " features, but the model is expecting "
      + Texts.NatToString(want) + " features as input"
  }

  /** `model.predict_proba(row)[1]`: fails exactly when the width is wrong. */
  function PredictProba(c: Classifier, row: seq<real>): (r: Result<real, string>)
    ensures r.Ok? <==> |row| == c.nFeatures
    ensures r.Ok? ==> r.value == c.proba(row)
    ensures r.Err? ==> r.error == FeatureMismatch(|row|, c.nFeatures)
  {
    if |row| == c.nFeatures then Ok(c.proba(row)) else Err(FeatureMismatch(|row|, c.nFeatures))
  }

  const DefaultStage1Threshold: real := 0.3
  const DefaultStage2Threshold: real := 0.05

  /** The stage-2 base models, in the order their probabilities reach the meta-model. */
  const Stage2ModelNames: seq<string> :=
    ["XGBoost", "LightGBM", "CatBoost", "ExtraTrees", "MLP", "LogisticRegression", "RandomForest"]

  const Stage1NotLoaded := "Stage 1 model not loaded"
  const Stage2NotLoaded := "Stage 2 models not loaded"
  /** Reading the first probability of an empty input matrix fails. */
  const EmptyInput := "index 0 is out of bounds for axis 0 with size 0"

  const Stage1File := "stage1_xgboost.json"
  const MetaFile := "meta_model.pkl"
  const ThresholdsFile := "thresholds.pkl"

  /** The artifact file each stage-2 model is loaded from. */
  function Stage2File(name: string): (file: string) {
    if name == "XGBoost" then "stage2_xgboost.json"
    else if name == "CatBoost" then "stage2_catboost.cbm"
    else "stage2_" + Texts.AsciiLower(name) + ".pkl"
  }

  datatype Stage = Stage1 | Stage2 {
    function Name(): (n: string) {
      match this
      case Stage1 => "stage1"
      case Stage2 => "stage2"
    }
  }

  datatype PredictionResult = PredictionResult(
    stage1Probability: real,
    stage1Prediction: int,
    prediction: int,
    stageUsed: Stage,
    stage2Probability: Option<real>)

  /** `(p > threshold).astype(int)`. */
  function Decide(p: real, threshold: real): (d: int)
    ensures d == 0 || d == 1
    ensures d == 1 <==> p > threshold
  {
    if p > threshold then 1 else 0
  }

  /** A higher probability never lowers the verdict, and a higher threshold never raises it. */
  lemma DecideMonotone(p: real, q: real, t: real, u: real)
    requires p <= q && u <= t
    ensures Decide(p, t) <= Decide(q, u)
  {
  }

  /** The elements of `names` that belong to `keep`, in the order of `names`. */
  function Select(names: seq<string>, keep: set<string>): (r: seq<string>)
    ensures |r| <= |names|
    ensures forall n :: n in r <==> n in names && n in keep
  {
    if names == [] then []
    else
      var init := Select(names[..|names| - 1], keep);
      var n := names[|names| - 1];
      assert names == names[..|names| - 1] + [n];
      if n in keep then init + [n] else init
  }

  lemma SelectStep(names: seq<string>, i: nat, keep: set<string>)
    requires i < |names|
    ensures Select(names[..i + 1], keep) == Select(names[..i], keep) + (if names[i] in keep then [names[i]] else [])
  {
    assert names[..i + 1][..i] == names[..i];
  }

  /** The elements of `names` that do not belong to `drop`, in the order of `names`. */
  function Reject(names: seq<string>, drop: set<string>): (r: seq<string>)
    ensures forall n :: n in r <==> n in names && n !in drop
  {
    if names == [] then []
    else
      var init := Reject(names[..|names| - 1], drop);
      var n := names[|names| - 1];
      assert names == names[..|names| - 1] + [n];
      if n !in drop then init + [n] else init
  }

  lemma RejectStep(names: seq<string>, i: nat, drop: set<string>)
    requires i < |names|
    ensures Reject(names[..i + 1], drop) == Reject(names[..i], drop) + (if names[i] !in drop then [names[i]] else [])
  {
    assert names[..i + 1][..i] == names[..i];
  }

  /** A name's position is its first occurrence's. */
  lemma IndexOfAt(names: seq<string>, j: nat)
    requires j < |names| && names[j] !in names[..j]
    ensures LabelCodec.IndexOf(names, names[j]) == j
  {
  }

  /**
   * From a list without repetitions, `Reject` keeps a list without
   * repetitions whose names appear in the order they have in `names`.
   */
  lemma {:induction false} RejectInOrder(names: seq<string>, drop: set<string>)
    requires Distinct(names)
    ensures var r := Reject(names, drop);
      && Distinct(r)
      && forall a, b :: 0 <= a < b < |r| ==> LabelCodec.IndexOf(names, r[a]) < LabelCodec.IndexOf(names, r[b])
  {
    if names != [] {
      var last := |names| - 1;
      var init := names[..last];
      var n := names[last];
      var r := Reject(names, drop);
      var ri := Reject(init, drop);
      assert Distinct(init);
      RejectInOrder(init, drop);
      forall j | 0 <= j < last
        ensures LabelCodec.IndexOf(names, init[j]) == LabelCodec.IndexOf(init, init[j]) == j
      {
        assert init[..j] == names[..j];
        IndexOfAt(init, j);
        IndexOfAt(names, j);
      }
      assert n !in init;
      IndexOfAt(names, last);
      forall a | 0 <= a < |ri|
        ensures LabelCodec.IndexOf(names, ri[a]) == LabelCodec.IndexOf(init, ri[a]) < last
      {
        var j := LabelCodec.IndexOf(init, ri[a]);
        assert init[j] == ri[a];
      }
    }
  }

  /**
   * The base-model probabilities for `row`, one for every name of `names` that
   * has a model, in the order of `names`; the first model that rejects the row
   * decides the error.
   */
  function BaseProbabilities(names: seq<string>, models: map<string, Classifier>, row: seq<real>)
    : (r: Result<seq<real>, string>)
  {
    if names == [] then Ok([])
    else
      match BaseProbabilities(names[..|names| - 1], models, row)
      case Err(e) => Err(e)
      case Ok(ps) =>
        var n := names[|names| - 1];
        if n !in models then Ok(ps)
        else
          match PredictProba(models[n], row)
          case Err(e) => Err(e)
          case Ok(p) => Ok(ps + [p])
  }

  /** The meta-model's input: each present base model's probability, in the order of `names`. */
  function MetaFeatures(names: seq<string>, models: map<string, Classifier>, row: seq<real>): (r: seq<real>)
    ensures |r| == |Select(names, models.Keys)|
  {
    var used := Select(names, models.Keys);
    seq(|used|, k requires 0 <= k < |used| => models[used[k]].proba(row))
  }

  /**
   * Collecting base probabilities succeeds exactly when every present model
   * accepts the row's width, and then yields `MetaFeatures`.
   */
  lemma {:induction false} BaseProbabilitiesMeaning(
    names: seq<string>, models: map<string, Classifier>, row: seq<real>)
    ensures BaseProbabilities(names, models, row).Ok?
      <==> forall n :: n in names && n in models ==> models[n].nFeatures == |row|
    ensures BaseProbabilities(names, models, row).Ok?
      ==> BaseProbabilities(names, models, row).value == MetaFeatures(names, models, row)
  {
    if names != [] {
      var init := names[..|names| - 1];
      var n := names[|names| - 1];
      assert names == init + [n];
      BaseProbabilitiesMeaning(init, models, row);
      var used := Select(names, models.Keys);
      var usedInit := Select(init, models.Keys);
      if BaseProbabilities(init, models, row).Ok? && n in models && models[n].nFeatures == |row| {
        assert used == usedInit + [n];
        assert MetaFeatures(names, models, row) == MetaFeatures(init, models, row) + [models[n].proba(row)];
      }
    }
  }

  /** Once a prefix of `names` has failed, the whole collection fails with the same error. */
  lemma {:induction false} BaseErrorPersists(
    names: seq<string>, k: nat, models: map<string, Classifier>, row: seq<real>)
    requires k <= |names|
    requires BaseProbabilities(names[..k], models, row).Err?
    ensures BaseProbabilities(names, models, row) == BaseProbabilities(names[..k], models, row)
  {
    if k < |names| {
      var init := names[..|names| - 1];
      assert init[..k] == names[..k];
      BaseErrorPersists(init, k, models, row);
    } else {
      assert names[..k] == names;
    }
  }

  datatype ModelInfo = ModelInfo(
    stage1ModelLoaded: bool,
    stage1Threshold: real,
    stage2ModelsLoaded: seq<string>,
    stage2ModelsMissing: seq<string>,
    stage2ModelsCount: nat,
    stage2ExpectedCount: nat,
    metaModelLoaded: bool,
    stage2Threshold: real,
    allStage2ModelsLoaded: bool)

  /**
   * The stage-2 part of `load_models`: one model per base-model name whose
   * file is present, read in name order.
   */
  method LoadStage2(files: set<string>, artifact: string -> Classifier)
    returns (order: seq<string>, models: map<string, Classifier>)
    ensures order == Select(Stage2ModelNames, AvailableStage2(files))
    ensures Distinct(order)
    ensures forall n :: n in order <==> n in models
    ensures forall n :: n in models ==> models[n] == artifact(Stage2File(n))
  {
    order := [];
    models := map[];
    ghost var keep := AvailableStage2(files);
    var i := 0;
    while i < |Stage2ModelNames|
      invariant 0 <= i <= |Stage2ModelNames|
      invariant order == Select(Stage2ModelNames[..i], keep)
      invariant forall n :: n in order <==> n in models
      invariant forall n :: n in models ==> models[n] == artifact(Stage2File(n))
    {
      var name := Stage2ModelNames[i];
      SelectStep(Stage2ModelNames, i, keep);
      AvailableAt(files, i);
      if Stage2File(name) in files {
        order := order + [name];
        models := models[name := artifact(Stage2File(name))];
      }
      i := i + 1;
    }
    assert Stage2ModelNames[..i] == Stage2ModelNames;
    NamesDistinct();
    SelectDistinct(Stage2ModelNames, AvailableStage2(files));
  }

  class TwoStagePredictor {
    var stage1Model: Option<Classifier>
    var stage1Threshold: real
    /** The keys of the stage-2 model dictionary, in insertion order. */
    var stage2Order: seq<string>
    var stage2Models: map<string, Classifier>
    var metaModel: Option<Classifier>
    var stage2Threshold: real

    /** `stage2Order` lists each key of `stage2Models` exactly once. */
    ghost predicate Valid()
      reads this
    {
      Distinct(stage2Order) && forall n :: n in stage2Order <==> n in stage2Models
    }

    constructor ()
      ensures Valid()
      ensures stage1Model == None && stage1Threshold == DefaultStage1Threshold
      ensures stage2Order == [] && stage2Models == map[]
      ensures metaModel == None && stage2Threshold == DefaultStage2Threshold
    {
      stage1Model := None;
      stage1Threshold := DefaultStage1Threshold;
      stage2Order := [];
      stage2Models := map[];
      metaModel := None;
      stage2Threshold := DefaultStage2Threshold;
    }

    /** Installs a fresh, unfitted stage-1 model. */
    method CreateStage1Model(model: Classifier)
      modifies this
      ensures stage1Model == Some(model)
      ensures stage1Threshold == old(stage1Threshold) && stage2Order == old(stage2Order)
      ensures stage2Models == old(stage2Models) && metaModel == old(metaModel)
      ensures stage2Threshold == old(stage2Threshold)
    {
      stage1Model := Some(model);
    }

    /** Installs one fresh model per stage-2 name, in name order, and a fresh meta-model. */
    method CreateStage2Models(untrained: string -> Classifier, meta: Classifier)
      modifies this
      ensures Valid()
      ensures stage2Order == Stage2ModelNames
      ensures stage2Models == map n | n in Stage2ModelNames :: untrained(n)
      ensures metaModel == Some(meta)
      ensures stage1Model == old(stage1Model) && stage1Threshold == old(stage1Threshold)
      ensures stage2Threshold == old(stage2Threshold)
    {
      stage2Order := Stage2ModelNames;
      stage2Models := map n | n in Stage2ModelNames :: untrained(n);
      metaModel := Some(meta);
    }

    /**
     * Loads whichever artifacts exist: `files` is the set of artifact files
     * present in the model directory, `artifact` what each file deserialises
     * to, and `thresholds` the pair stored in the thresholds file. The stage-2
     * dictionary is rebuilt from scratch; the stage-1 model, the meta-model and
     * the thresholds keep their old values when their file is absent.
     */
    method LoadModels(files: set<string>, artifact: string -> Classifier, thresholds: (real, real))
      modifies this
      ensures Valid()
      ensures stage1Model == if Stage1File in files then Some(artifact(Stage1File)) else old(stage1Model)
      ensures stage2Order == Select(Stage2ModelNames, AvailableStage2(files))
      ensures forall n :: n in stage2Models ==> stage2Models[n] == artifact(Stage2File(n))
      ensures metaModel == if MetaFile in files then Some(artifact(MetaFile)) else old(metaModel)
      ensures (stage1Threshold, stage2Threshold)
        == if ThresholdsFile in files then thresholds else (old(stage1Threshold), old(stage2Threshold))
    {
      if Stage1File in files {
        stage1Model := Some(artifact(Stage1File));
      }
      var order, models := LoadStage2(files, artifact);
      stage2Order := order;
      stage2Models := models;
      if MetaFile in files {
        metaModel := Some(artifact(MetaFile));
      }
      if ThresholdsFile in files {
        stage1Threshold := thresholds.0;
        stage2Threshold := thresholds.1;
      }
    }

    /** What `predict` returns for the input matrix `x`, or the error it raises. */
    function Predicted(x: Matrix): (r: Result<PredictionResult, string>)
      reads this
    {
      if stage1Model.None? then Err(Stage1NotLoaded)
      else if |x| == 0 then Err(EmptyInput)
      else
        match PredictProba(stage1Model.value, x[0])
        case Err(e) => Err(e)
        case Ok(p1) =>
          if Decide(p1, stage1Threshold) == 0 then Ok(PredictionResult(p1, 0, 0, Stage1, None))
          else if stage2Models == map[] || metaModel.None? then Err(Stage2NotLoaded)
          else
            match BaseProbabilities(Stage2ModelNames, stage2Models, x[0])
            case Err(e) => Err(e)
            case Ok(base) =>
              match PredictProba(metaModel.value, base)
              case Err(e) => Err(e)
              case Ok(p2) => Ok(PredictionResult(p1, 1, Decide(p2, stage2Threshold), Stage2, Some(p2)))
    }

    /** `predict`: screens the first row with stage 1 and escalates flagged rows to stage 2. */
    method Predict(x: Matrix) returns (r: Result<PredictionResult, string>)
      ensures r == Predicted(x)
    {
      if stage1Model.None? {
        return Err(Stage1NotLoaded);
      }
      if |x| == 0 {
        return Err(EmptyInput);
      }
      var s1 := PredictProba(stage1Model.value, x[0]);
      if s1.Err? {
        return Err(s1.error);
      }
      var p1 := s1.value;
      if Decide(p1, stage1Threshold) == 0 {
        return Ok(PredictionResult(p1, 0, 0, Stage1, None));
      }
      if stage2Models == map[] || metaModel.None? {
        return Err(Stage2NotLoaded);
      }
      var base: seq<real> := [];
      var i := 0;
      while i < |Stage2ModelNames|
        invariant 0 <= i <= |Stage2ModelNames|
        invariant BaseProbabilities(Stage2ModelNames[..i], stage2Models, x[0]) == Ok(base)
      {
        var name := Stage2ModelNames[i];
        assert Stage2ModelNames[..i + 1][..i] == Stage2ModelNames[..i];
        if name in stage2Models {
          var p := PredictProba(stage2Models[name], x[0]);
          if p.Err? {
            BaseErrorPersists(Stage2ModelNames, i + 1, stage2Models, x[0]);
            return Err(p.error);
          }
          base := base + [p.value];
        }
        i := i + 1;
      }
      assert Stage2ModelNames[..i] == Stage2ModelNames;
      var s2 := PredictProba(metaModel.value, base);
      if s2.Err? {
        return Err(s2.error);
      }
      r := Ok(PredictionResult(p1, 1, Decide(s2.value, stage2Threshold), Stage2, Some(s2.value)));
    }

    /** What `predict_batch` returns: one `predict` per single-row slice; the first error aborts. */
    function BatchPredicted(x: Matrix): (r: Result<seq<PredictionResult>, string>)
      reads this
    {
      if x == [] then Ok([])
      else
        match BatchPredicted(x[..|x| - 1])
        case Err(e) => Err(e)
        case Ok(rs) =>
          match Predicted([x[|x| - 1]])
          case Err(e) => Err(e)
          case Ok(res) => Ok(rs + [res])
    }

    method PredictBatch(x: Matrix) returns (r: Result<seq<PredictionResult>, string>)
      ensures r == BatchPredicted(x)
    {
      var results: seq<PredictionResult> := [];
      var i := 0;
      while i < |x|
        invariant 0 <= i <= |x|
        invariant BatchPredicted(x[..i]) == Ok(results)
      {
        assert x[..i + 1][..i] == x[..i];
        assert x[i..i + 1] == [x[i]];
        var res := Predict(x[i..i + 1]);
        if res.Err? {
          BatchErrorPersists(x, i + 1);
          return Err(res.error);
        }
        results := results + [res.value];
        i := i + 1;
      }
      assert x[..i] == x;
      r := Ok(results);
    }

    /** Once a prefix of the batch has failed, the whole batch fails with the same error. */
    lemma {:induction false} BatchErrorPersists(x: Matrix, k: nat)
      requires k <= |x|
      requires BatchPredicted(x[..k]).Err?
      ensures BatchPredicted(x) == BatchPredicted(x[..k])
    {
      if k < |x| {
        var init := x[..|x| - 1];
        assert init[..k] == x[..k];
        BatchErrorPersists(init, k);
      } else {
        assert x[..k] == x;
      }
    }

    /**
     * A batch succeeds exactly when every row does on its own, and then its
     * i-th result is the single-row prediction of row i.
     */
    lemma {:induction false} BatchMeaning(x: Matrix)
      ensures BatchPredicted(x).Ok? <==> forall i :: 0 <= i < |x| ==> Predicted([x[i]]).Ok?
      ensures BatchPredicted(x).Ok? ==>
        |BatchPredicted(x).value| == |x|
        && forall i :: 0 <= i < |x| ==> BatchPredicted(x).value[i] == Predicted([x[i]]).value
    {
      if x != [] {
        var init := x[..|x| - 1];
        BatchMeaning(init);
        assert forall i :: 0 <= i < |init| ==> init[i] == x[i];
      }
    }

    /**
     * `get_model_info`: the missing list names each expected model that is
     * not loaded, once, in the order of the expected names.
     */
    function ModelInfoOf(): (info: ModelInfo)
      reads this
      ensures info.stage2ExpectedCount == |Stage2ModelNames|
      ensures forall n :: n in info.stage2ModelsMissing <==> n in Stage2ModelNames && n !in stage2Order
      ensures Distinct(info.stage2ModelsMissing)
      ensures forall a, b :: 0 <= a < b < |info.stage2ModelsMissing| ==>
        LabelCodec.IndexOf(Stage2ModelNames, info.stage2ModelsMissing[a])
          < LabelCodec.IndexOf(Stage2ModelNames, info.stage2ModelsMissing[b])
    {
      NamesDistinct();
      RejectInOrder(Stage2ModelNames, set n | n in stage2Order);
      ModelInfo(
        stage1ModelLoaded := stage1Model.Some?,
        stage1Threshold := stage1Threshold,
        stage2ModelsLoaded := stage2Order,
        stage2ModelsMissing := Reject(Stage2ModelNames, set n | n in stage2Order),
        stage2ModelsCount := |stage2Models.Keys|,
        stage2ExpectedCount := |Stage2ModelNames|,
        metaModelLoaded := metaModel.Some?,
        stage2Threshold := stage2Threshold,
        allStage2ModelsLoaded := |stage2Order| == |Stage2ModelNames|)
    }
  }

  /** The stage-2 names whose artifact file is present. */
  function AvailableStage2(files: set<string>): (names: set<string>) {
    set n | n in Stage2ModelNames && Stage2File(n) in files
  }

  lemma AvailableAt(files: set<string>, i: nat)
    requires i < |Stage2ModelNames|
    ensures Stage2ModelNames[i] in AvailableStage2(files) <==> Stage2File(Stage2ModelNames[i]) in files
  {
    assert Stage2ModelNames[i] in Stage2ModelNames;
  }

  // ---------------------------------------------------------------------
  // Properties of the two-stage prediction
  // ---------------------------------------------------------------------

  /**
   * The stage-1 probability is the stage-1 model's on the first row, the
   * stage-1 verdict is the threshold test on it, and
   * a transaction stage 1 clears is answered by stage 1 alone.
   */
  lemma Stage1Gate(p: TwoStagePredictor, x: Matrix)
    requires p.Predicted(x).Ok?
    ensures p.stage1Model.Some? && |x| > 0
    ensures var res := p.Predicted(x).value;
      && res.stage1Probability == p.stage1Model.value.proba(x[0])
      && (res.stage1Prediction == 1 <==> res.stage1Probability > p.stage1Threshold)
      && (res.stage1Prediction == 0 ==> res.prediction == 0 && res.stageUsed == Stage1 && res.stage2Probability == None)
      && (res.stage1Prediction == 1 ==> res.stageUsed == Stage2 && res.stage2Probability.Some?)
  {
  }

  /**
   * The errors raised before any model scores: no stage-1 model, then an
   * empty input, then a flagged transaction with no stage-2 model or no
   * meta-model.
   */
  lemma NotLoadedErrors(p: TwoStagePredictor, x: Matrix)
    ensures p.stage1Model.None? ==> p.Predicted(x) == Err(Stage1NotLoaded)
    ensures p.stage1Model.Some? && |x| == 0 ==> p.Predicted(x) == Err(EmptyInput)
    ensures p.stage1Model.Some? && |x| > 0 && |x[0]| == p.stage1Model.value.nFeatures
      && p.stage1Model.value.proba(x[0]) > p.stage1Threshold
      && (p.stage2Models == map[] || p.metaModel.None?)
      ==> p.Predicted(x) == Err(Stage2NotLoaded)
  {
  }

  /** Stage-2 models and the meta-model are never consulted for a transaction stage 1 clears. */
  lemma Stage2NotConsulted(p: TwoStagePredictor, q: TwoStagePredictor, x: Matrix)
    requires p.stage1Model == q.stage1Model && p.stage1Threshold == q.stage1Threshold
    requires p.Predicted(x).Ok? && p.Predicted(x).value.stageUsed == Stage1
    ensures q.Predicted(x) == p.Predicted(x)
  {
  }

  /**
   * A flagged transaction's final verdict is the meta-model's threshold test
   * on the present base models' probabilities, taken in the fixed model order.
   */
  lemma Stage2Verdict(p: TwoStagePredictor, x: Matrix)
    requires p.Predicted(x).Ok? && p.Predicted(x).value.stageUsed == Stage2
    ensures |x| > 0 && p.metaModel.Some?
    ensures var res := p.Predicted(x).value;
      var q := p.metaModel.value.proba(MetaFeatures(Stage2ModelNames, p.stage2Models, x[0]));
      && res.stage2Probability == Some(q)
      && (res.prediction == 1 <==> q > p.stage2Threshold)
  {
    BaseProbabilitiesMeaning(Stage2ModelNames, p.stage2Models, x[0]);
  }

  /**
   * With a meta-model trained on all seven probabilities, a flagged
   * transaction cannot be scored while any stage-2 model is missing.
   */
  lemma MissingStage2ModelFails(p: TwoStagePredictor, x: Matrix)
    requires p.metaModel.Some? && p.metaModel.value.nFeatures == |Stage2ModelNames|
    requires |Select(Stage2ModelNames, p.stage2Models.Keys)| < |Stage2ModelNames|
    requires p.Predicted(x).Ok?
    ensures p.Predicted(x).value.stageUsed == Stage1
  {
    if p.Predicted(x).value.stageUsed == Stage2 {
      BaseProbabilitiesMeaning(Stage2ModelNames, p.stage2Models, x[0]);
    }
  }

  lemma NamesDistinct()
    ensures Distinct(Stage2ModelNames)
  {
  }

  /** Selecting from a list without repetitions gives a list without repetitions. */
  lemma {:induction false} SelectDistinct(names: seq<string>, keep: set<string>)
    requires Distinct(names)
    ensures Distinct(Select(names, keep))
  {
    if names != [] {
      var init := names[..|names| - 1];
      SelectDistinct(init, keep);
      assert forall i :: 0 <= i < |init| ==> init[i] != names[|names| - 1];
    }
  }

  /**
   * With the stage-2 dictionary holding only known model names, the "all
   * stage-2 models loaded" flag is set exactly when no model is reported
   * missing, and the reported count equals the number of loaded names.
   */
  lemma AllLoadedIffNoneMissing(p: TwoStagePredictor)
    requires p.Valid()
    requires forall n :: n in p.stage2Models ==> n in Stage2ModelNames
    ensures p.ModelInfoOf().stage2ModelsCount == |p.stage2Order|
    ensures p.ModelInfoOf().allStage2ModelsLoaded <==> p.ModelInfoOf().stage2ModelsMissing == []
    ensures p.ModelInfoOf().allStage2ModelsLoaded
      <==> p.ModelInfoOf().stage2ModelsCount == p.ModelInfoOf().stage2ExpectedCount
  {
    var loaded := set n | n in p.stage2Order;
    var all := set n | n in Stage2ModelNames;
    assert loaded == p.stage2Models.Keys;
    DistinctCardinality(p.stage2Order);
    NamesDistinct();
    DistinctCardinality(Stage2ModelNames);
    var info := p.ModelInfoOf();
    if info.allStage2ModelsLoaded && info.stage2ModelsMissing != [] {
      var m := info.stage2ModelsMissing[0];
      assert m in all && m !in loaded;
      SubsetCardinality(loaded, all - {m});
      assert false;
    }
    if info.stage2ModelsMissing == [] {
      assert all <= loaded;
      SubsetCardinality(all, loaded);
      SubsetCardinality(loaded, all);
    }
  }

  /** After loading, the dictionary holds only known names, each from its own artifact file. */
  lemma LoadedKeysAreKnown(files: set<string>)
    ensures forall n :: (n in Select(Stage2ModelNames, AvailableStage2(files))
      <==> n in Stage2ModelNames && Stage2File(n) in files)
  {
  }
}
