# SBI hackathon services: a verified model of their decision logic

This project models, in Dafny, the deterministic rules that sit around the
machine-learning calls of the SBI hackathon repository:

- **The two-stage fraud predictor** (`Prediction`). It is an imperative class holding the stage-1 model, the
  seven stage-2 models, the meta-model and the two thresholds (0.3 and 0.05). The
  stage-1 probability is compared strictly with its threshold; a 0 ends the
  decision at stage 1. A flagged transaction feeds the probabilities of the
  stage-2 models that are present, in the fixed name order, to the
  meta-model. Further parts: model loading from the set of artifact files present,
  single-row and batch prediction, and the model-info report.
- **Tabular preprocessing** (`Preprocessing`, `Frames`, `LabelCodec`). Schema alignment
  (missing columns added as NaN, reordering, extra columns dropped),
  placeholder strings turned into missing values, and label encoding with
  unseen categories replaced by the encoder's first class. The fitted imputer and
  scaler are opaque functions that may raise their own error; stage dispatch is exact.
- **The fraud HTTP service** (`FraudApi`). `/predict` copies the predictor's result into
  its response; `/predict_batch` answers with one result per request in
  request order, or a 500 that carries the first failure and no partial
  results.
- **The batch client script** (`CsvToApi`). Infinite values become missing, then
  columns are filled with their medians, missing columns are rejected, and each row
  is projected onto the 137 expected features and wrapped as `{"data": row}`.
  The extraction loop tries the keys
  `prediction, pred, output, label, result` on each response item, with a
  for-else fallback.
- **The tower service** (`TowerService`). The start-up edge list (one edge per consecutive
  pair of a device's timestamp-ordered towers, device groups in ascending
  order), the account-to-device lookup (404), the empty-history check (400),
  the five-slot LSTM window built in place in an array, and the latest-tower
  key of the GNN endpoint.
- **The browser client** (`ApiClient`). The tower directory built by a `reduce` in which later
  duplicates win; the join of a predicted tower id against it, with
  "Server error" and "Unknown tower ID" failures and a bounded coordinate
  jitter; the mock defaulter score, accumulated term by term and clamped
  into [0, 100].
- **The four screens** (`DefaulterScreen`, `LocationScreen`, `LoanScreen`,
  `LandingScreen`). Each is a class whose fields are the component's state and
  whose methods are its handlers; an `async` handler is split at its `await`
  into a begin and a complete half.
- **The ORM model-file generator** (`ModelFileGen`). The written file is the sequence of
  chunks passed to `write`: the fixed header, then one `Column` line per CSV
  column, with a `KeyError` that stops generation at the first dtype outside
  the map.

Shared modules: `Wrappers` (Option and Result), `Texts` (decimal text,
JavaScript `parseInt` and `trim`, join and split, the string order used for
timestamps), `Json` (parsed JSON values) and `Sets` (cardinality facts).

Values the source receives from outside are parameters of the model, and the
model does not compute them:

- model probabilities and network outputs;
- the HTTP answers;
- parsed CSV and JSON;
- `Math.random()` draws, which lie in [0, 1);
- clock readings;
- the text JavaScript or Python prints for a non-integral float.

Where the behaviour of the code differs from what its comments or its
documentation say, the model follows the code:

- The notification e-mail: the CSV parser is not asked to convert types, so every
  cell is text. A TARGET of `"0"` is therefore printed as `0`; only an absent or empty
  value prints `N/A` (`DefaulterScreen.ZeroTargetIsPrinted`).
- The LSTM window: the comment calls it "right padding", but the zeros go on the
  left and the sequence is right-aligned (`TowerService.WindowOfShort`).
- Missing stage-2 models: for a flagged transaction, `predict` does not fail on
  them by itself. It skips them, and the meta-model then sees fewer than seven
  inputs (`Prediction.MissingStage2ModelFails`).
- The batch client: it expects a list from the batch endpoint, which answers with
  an object (see Findings).

## Model

| member | source | states |
|---|---|---|
| Prediction.PredictProba | ps1/prediction.py:165 | a model's probability exists exactly when the row has the model's feature count, else the width-mismatch error |
| Prediction.Decide | ps1/prediction.py:139 | the verdict is 0 or 1, and 1 exactly when the probability is strictly above the threshold |
| Prediction.DecideMonotone | ps1/prediction.py:139 | a higher probability never lowers the verdict and a higher threshold never raises it |
| Prediction.Select | ps1/prediction.py:162-167 | the names kept are exactly those of the list that have a model, never more than the list |
| Prediction.Reject | ps1/prediction.py:296 | the missing list holds exactly the expected names that are not loaded |
| Prediction.RejectStep | ps1/prediction.py:296 | the comprehension adds a name after those of the earlier names exactly when it is not loaded |
| Prediction.RejectInOrder | ps1/prediction.py:296 | from expected names without repeats, the missing list has no repeats and keeps the expected names' order |
| Prediction.MetaFeatures | ps1/prediction.py:175 | the meta-model input has one entry per present stage-2 model |
| Prediction.BaseProbabilitiesMeaning | ps1/prediction.py:159-167 | collecting base probabilities succeeds iff every present model accepts the row width, and then yields the meta features in model order |
| Prediction.BaseErrorPersists | ps1/prediction.py:162-166 | the first base model that raises decides the error of the whole collection |
| Prediction.LoadStage2 | ps1/prediction.py:246-271 | the stage-2 dictionary holds exactly the models whose file exists, each read from its own file, listed in name order without repetition |
| Prediction.TwoStagePredictor.constructor | ps1/prediction.py:26-40 | no models, thresholds 0.3 and 0.05, empty stage-2 dictionary |
| Prediction.TwoStagePredictor.CreateStage1Model | ps1/prediction.py:42-58 | installs a fresh stage-1 model and changes nothing else |
| Prediction.TwoStagePredictor.CreateStage2Models | ps1/prediction.py:60-77 | installs one fresh model per stage-2 name in name order and a fresh meta-model; stage 1 untouched |
| Prediction.TwoStagePredictor.LoadModels | ps1/prediction.py:234-289 | each artifact replaces its component only when its file exists; the stage-2 dictionary is rebuilt from the files present; thresholds come from the thresholds file or stay |
| Prediction.TwoStagePredictor.Predict | ps1/prediction.py:124-185 | the result is the two-stage decision of the model (Stage1Gate, Stage2Verdict state what it means), including the two 'not loaded' errors |
| Prediction.TwoStagePredictor.PredictBatch | ps1/prediction.py:187-195 | the loop returns the per-row predictions or the first row's error |
| Prediction.TwoStagePredictor.BatchErrorPersists | ps1/prediction.py:191-194 | once a prefix of rows fails, the batch fails with that error |
| Prediction.TwoStagePredictor.BatchMeaning | ps1/prediction.py:187-195 | a batch succeeds iff every single row does, and result i is row i's own prediction |
| Prediction.TwoStagePredictor.ModelInfoOf | ps1/prediction.py:291-308 | the expected count is seven; the missing list holds exactly the expected names without a model, each once, in the order of the expected names |
| Prediction.Stage1Gate | ps1/prediction.py:138-153 | a result needs a stage-1 model and a row; its stage-1 probability is that model's on the first row; the stage-1 verdict is the threshold test, a cleared transaction ends at stage 1 with no stage-2 probability, a flagged one goes to stage 2 |
| Prediction.NotLoadedErrors | ps1/prediction.py:134-157 | no stage-1 model raises 'Stage 1 model not loaded' whatever the input; an empty input the index error; a flagged transaction without stage-2 models or meta-model 'Stage 2 models not loaded' |
| Prediction.Stage2NotConsulted | ps1/prediction.py:146-153 | for a transaction stage 1 clears, the answer does not depend on the stage-2 models or the meta-model |
| Prediction.Stage2Verdict | ps1/prediction.py:156-183 | a stage-2 answer is the meta-model's threshold test on the present base probabilities in fixed name order |
| Prediction.MissingStage2ModelFails | ps1/prediction.py:171-177 | with a meta-model expecting seven inputs, a flagged transaction cannot be answered while a stage-2 model is missing |
| Prediction.NamesDistinct | ps1/prediction.py:37-40 | the seven stage-2 names are pairwise distinct |
| Prediction.SelectDistinct | ps1/prediction.py:162-167 | selecting from a list without repetitions keeps it without repetitions |
| Prediction.AllLoadedIffNoneMissing | ps1/prediction.py:295-307 | with only known names loaded, the count equals the loaded names, and 'all loaded' holds iff nothing is missing and iff the count equals the expected count |
| Prediction.LoadedKeysAreKnown | ps1/prediction.py:246-271 | after loading, a name is in the dictionary iff it is a stage-2 name whose file exists |
| Preprocessing.ReplacePlaceholder | ps1/preprocessing.py:136 | no placeholder text survives in a cell |
| Preprocessing.ReplacePlaceholders | ps1/preprocessing.py:136 | a column keeps its length |
| Preprocessing.Replaced | ps1/preprocessing.py:133-136 | the frame keeps its columns, height and well-formedness |
| Preprocessing.PlaceholdersGone | ps1/preprocessing.py:136 | every placeholder cell becomes missing, every other cell is unchanged |
| Preprocessing.CellTexts | ps1/preprocessing.py:142 | text conversion keeps the column length |
| Preprocessing.CategoryCodeMonotone | ps1/preprocessing.py:163 | a value ordered before another present value gets a smaller code |
| Preprocessing.CategoryCodesOrdered | ps1/preprocessing.py:163 | codes number the distinct values from 0 in sorted order: below the number of distinct values, equal iff values equal, ordered like the values |
| Preprocessing.ReplaceUnseen | ps1/preprocessing.py:155-158 | replacing unseen labels keeps the column length |
| Preprocessing.EncodeColumn | ps1/preprocessing.py:150-163 | encoding a column fails only with the unseen-labels error and otherwise keeps its length |
| Preprocessing.UnseenBecomesFirstClass | ps1/preprocessing.py:150-160 | with a non-empty encoder, encoding never fails: a known label gets its index, an unseen one index 0 |
| Preprocessing.EmptyEncoderFails | ps1/preprocessing.py:156-160 | an encoder with no classes rejects any non-empty column |
| Preprocessing.HandleMissingAndEncode | ps1/preprocessing.py:129-165 | the method computes the placeholder-then-encode function of the model |
| Preprocessing.EncodeCategoricals | ps1/preprocessing.py:139-165 | the loop over categorical columns computes the encoding function, failing as a whole on the first rejected column |
| Preprocessing.EncodeFailure | ps1/preprocessing.py:160 | one rejected categorical column makes the whole step fail with the unseen-labels error |
| Preprocessing.EncodeSuccess | ps1/preprocessing.py:139-165 | when every column encodes, the result has exactly the encoded columns |
| Preprocessing.HandledHasNoText | ps1/preprocessing.py:129-165 | after a successful step no cell holds text |
| Preprocessing.EnsureColumns | ps1/preprocessing.py:167-184 | the loop computes the schema alignment; without a schema the frame is returned as is |
| Preprocessing.EnsuredMeaning | ps1/preprocessing.py:176-182 | with a schema the frame has exactly the schema's columns in order, present ones keep their cells, absent ones are all missing, others are dropped |
| Preprocessing.EnsuredIdempotent | ps1/preprocessing.py:167-184 | aligning twice is aligning once |
| Preprocessing.DataPreprocessor.constructor | ps1/preprocessing.py:21-27 | all components absent, no encoders, no schema |
| Preprocessing.DataPreprocessor.LoadPreprocessors | ps1/preprocessing.py:214-251 | each component is replaced exactly when its file exists and kept otherwise |
| Preprocessing.DataPreprocessor.Preprocess | ps1/preprocessing.py:76-127 | the method computes the staged pipeline function: align, encode, impute, scale |
| Preprocessing.DataPreprocessor.PreprocessDispatch | ps1/preprocessing.py:76-127 | another stage raises the stage error; for either stage a failure comes from the encoders, from the NoneType error of a missing component, or from the imputer's or scaler's own error, and with both components loaded and neither raising the result is the scaled frame; without stage-1 components stage 1 fails with the NoneType error unless the imputer raised first |
| Frames.MissingColumn | ps1/preprocessing.py:179 | a new column of the frame's height, every cell missing |
| Frames.OneRowFrame | ps1/app.py:127 | the one-row frame is well formed and has exactly the record's keys as columns |
| LabelCodec.IndexOf | ps1/preprocessing.py:160 | the index of a label is its first position in the classes |
| LabelCodec.Transform | sbi-vishnu/sbi-prototype1/sbi-prototype1/fast_api/app.py:97 | encoding succeeds iff every label is a class, yields indices below the class count, and otherwise fails with the unseen-labels error |
| LabelCodec.InverseTransform | sbi-vishnu/sbi-prototype1/sbi-prototype1/fast_api/app.py:102 | decoding succeeds iff the index is within the classes |
| LabelCodec.InverseOfTransform | sbi-vishnu/sbi-prototype1/sbi-prototype1/fast_api/app.py:97-102 | decoding an encoded label gives the label back |
| Json.Get | ps1/csv_to_api.py:101-102 | a key is found iff the object has it, and the value found is stored under it |
| FraudApi.PredictAnswer | ps1/app.py:125-149 | a failure becomes a 500 with 'Prediction failed: ' and the message; a success copies the prediction, probabilities and stage name |
| FraudApi.Predict | ps1/app.py:111-149 | the handler answers what preprocessing then predicting one record yields |
| FraudApi.CollectErrorPersists | ps1/app.py:158-183 | an error in a prefix of the batch decides the batch |
| FraudApi.CollectMeaning | ps1/app.py:159-170 | collecting succeeds iff every outcome does and keeps them in order; otherwise the first failure's message is reported |
| FraudApi.Outcomes | ps1/app.py:161-170 | one outcome per request |
| FraudApi.PredictBatch | ps1/app.py:151-183 | the loop builds the batch answer over the requests, stopping at the first failure |
| FraudApi.BatchMeaning | ps1/app.py:151-183 | the batch answer holds one prediction per request in order and counts them, or is a 500 naming the first failure |
| CsvToApi.DropInfinite | ps1/csv_to_api.py:47 | keeps the column length |
| CsvToApi.InfinitiesRemoved | ps1/csv_to_api.py:47 | keeps the columns, height and well-formedness |
| CsvToApi.FillMissing | ps1/csv_to_api.py:51 | keeps the column length |
| CsvToApi.Filled | ps1/csv_to_api.py:48-51 | keeps the columns, height and well-formedness |
| CsvToApi.FillMedians | ps1/csv_to_api.py:48-51 | the loop over the medians fills exactly the columns the frame has |
| CsvToApi.Record | ps1/csv_to_api.py:58-61 | a record lists the expected columns, one entry each |
| CsvToApi.Cleaned | ps1/csv_to_api.py:47-51 | cleaning keeps the height, keys and well-formedness |
| CsvToApi.LoadAndPrepareData | ps1/csv_to_api.py:39-64 | the method computes the payload function: cleaned rows, or the set of missing columns |
| CsvToApi.MissingColumnsRejected | ps1/csv_to_api.py:53-55 | the payload is rejected iff some expected column is absent, and the complaint names exactly those columns |
| CsvToApi.PayloadMeaning | ps1/csv_to_api.py:47-62 | one request per row in order; each record lists the expected columns in order with the cleaned cell: infinite or missing becomes the median when there is one |
| CsvToApi.FirstKnown | ps1/csv_to_api.py:100-103 | nothing is found iff none of the keys is present |
| CsvToApi.FirstKnownPriority | ps1/csv_to_api.py:100-103 | the first present key in list order supplies the value |
| CsvToApi.ExtractPredictions | ps1/csv_to_api.py:95-112 | the loop (with its for-else fallback) computes the extraction as written |
| CsvToApi.ItemPredictionsMeaning | ps1/csv_to_api.py:97-109 | at most one prediction per item, exactly one per item in order when no item is an empty object |
| CsvToApi.BatchEnvelopeRejected | ps1/csv_to_api.py:96 | the batch endpoint's object answer is rejected by the as-written extraction |
| CsvToApi.ResultJsonPrediction | ps1/csv_to_api.py:100-103 | a predictor result object yields its 'prediction' field |
| CsvToApi.CorrectedReadsBatchResponse | ps1/csv_to_api.py:95-109 | the corrected extraction reads each request's prediction from the batch answer, in order |
| CsvToApi.RowsKeepTheirPredictions | ps1/csv_to_api.py:85-109 | end to end, with every request succeeding, CSV row i is paired with the prediction made for row i |
| TowerService.DeviceLogs | sbi-vishnu/sbi-prototype1/sbi-prototype1/fast_api/app.py:91 | a device's rows are exactly the logs of that device |
| TowerService.Insert | sbi-vishnu/sbi-prototype1/sbi-prototype1/fast_api/app.py:91 | insertion adds exactly one log, as a permutation |
| TowerService.SortByTime | sbi-vishnu/sbi-prototype1/sbi-prototype1/fast_api/app.py:91 | sorting permutes the logs |
| TowerService.InsertSorted | sbi-vishnu/sbi-prototype1/sbi-prototype1/fast_api/app.py:91 | inserting into a sorted list keeps it sorted |
| TowerService.SortByTimeSorted | sbi-vishnu/sbi-prototype1/sbi-prototype1/fast_api/app.py:91 | sorting orders the logs by timestamp |
| TowerService.LastIsLatest | sbi-vishnu/sbi-prototype1/sbi-prototype1/fast_api/app.py:125 | the last entry of a sorted list is not earlier than any other |
| TowerService.DeviceHistory | sbi-vishnu/sbi-prototype1/sbi-prototype1/fast_api/app.py:91 | a device's sorted history holds exactly its rows, ordered, the latest last |
| TowerService.InsertIdMeaning | sbi-vishnu/sbi-prototype1/sbi-prototype1/fast_api/app.py:64 | inserting a device id keeps the ascending key list, adds only that id, and changes nothing when it is present |
| TowerService.DeviceIdsMeaning | sbi-vishnu/sbi-prototype1/sbi-prototype1/fast_api/app.py:64 | the group keys are ascending and are exactly the devices that have logs |
| TowerService.Codes | sbi-vishnu/sbi-prototype1/sbi-prototype1/fast_api/app.py:59 | each log's code is the index of its tower in the encoder's classes |
| TowerService.Chain | sbi-vishnu/sbi-prototype1/sbi-prototype1/fast_api/app.py:66 | the edges link consecutive towers, one fewer than towers |
| TowerService.TowerIds | sbi-vishnu/sbi-prototype1/sbi-prototype1/fast_api/app.py:59 | the tower column, one entry per log |
| TowerService.KnownIffEncodes | sbi-vishnu/sbi-prototype1/sbi-prototype1/fast_api/app.py:59 | encoding the tower column succeeds iff every tower is known, else the unseen-labels error |
| TowerService.BuildEdges | sbi-vishnu/sbi-prototype1/sbi-prototype1/fast_api/app.py:59-66 | the start-up loop computes the edge list, or the encoder's error |
| TowerService.LogTotalOfDeviceIds | sbi-vishnu/sbi-prototype1/sbi-prototype1/fast_api/app.py:64 | every log belongs to exactly one group |
| TowerService.GraphEdgeCount | sbi-vishnu/sbi-prototype1/sbi-prototype1/fast_api/app.py:63-66 | the devices' edges number their logs minus one per device |
| TowerService.EdgesMeaning | sbi-vishnu/sbi-prototype1/sbi-prototype1/fast_api/app.py:59-66 | the edge list exists iff every logged tower is known, and then has as many edges as logs minus devices |
| TowerService.DeviceChainMeaning | sbi-vishnu/sbi-prototype1/sbi-prototype1/fast_api/app.py:65-66 | a device with n logs contributes n-1 edges linking its towers in timestamp order |
| TowerService.DevicesOfMeaning | sbi-vishnu/sbi-prototype1/sbi-prototype1/fast_api/app.py:86-90 | the device used is the first mapping row's; none iff the account has no row |
| TowerService.ArgMax | sbi-vishnu/sbi-prototype1/sbi-prototype1/fast_api/app.py:101 | the first index of a maximal score |
| TowerService.Decode | sbi-vishnu/sbi-prototype1/sbi-prototype1/fast_api/app.py:101-102 | a tower is predicted exactly when the scores are non-empty and their argmax indexes a class, and then it is the class at the argmax; an empty score list and an argmax past the classes are the two 500 errors |
| TowerService.DecodeMeaning | sbi-vishnu/sbi-prototype1/sbi-prototype1/fast_api/app.py:101-102 | a predicted tower is the class at a position whose score is the highest, and the first such position |
| TowerService.Encode | sbi-vishnu/sbi-prototype1/sbi-prototype1/fast_api/app.py:97 | each code is the first position of its tower in the classes, so decoding a code gives the tower back |
| TowerService.Window | sbi-vishnu/sbi-prototype1/sbi-prototype1/fast_api/app.py:98-99 | the window has five slots |
| TowerService.WindowOfLong | sbi-vishnu/sbi-prototype1/sbi-prototype1/fast_api/app.py:99 | with five or more codes the window is the last five |
| TowerService.WindowOfShort | sbi-vishnu/sbi-prototype1/sbi-prototype1/fast_api/app.py:98-99 | with fewer the window is zeros on the left, then the whole sequence |
| TowerService.PadWindow | sbi-vishnu/sbi-prototype1/sbi-prototype1/fast_api/app.py:98-99 | the array filled in place is the window of the encoded sequence |
| TowerService.LatestTower | sbi-vishnu/sbi-prototype1/sbi-prototype1/fast_api/app.py:120-125 | no tower iff the device has no logs, else the tower of a log not earlier than any of the device's |
| TowerService.LstmVerdict | sbi-vishnu/sbi-prototype1/sbi-prototype1/fast_api/app.py:97-104 | a tower outside the LSTM classes gives the unseen-labels 500, and only then; otherwise the verdict is the decoded LSTM output on the window of the encoded towers |
| TowerService.GnnVerdict | sbi-vishnu/sbi-prototype1/sbi-prototype1/fast_api/app.py:126-132 | a tower outside the GNN classes gives the unseen-labels 500, and only then; otherwise the verdict is the decoded GNN output row of that tower's code, or the out-of-range 500 when there is no such row |
| TowerService.LatestIsLast | sbi-vishnu/sbi-prototype1/sbi-prototype1/fast_api/app.py:120-125 | the latest tower is the last entry of the sorted history |
| TowerService.PredictLstm | sbi-vishnu/sbi-prototype1/sbi-prototype1/fast_api/app.py:83-110 | the handler answers what the model's LSTM reply states: 404, 400, verdict |
| TowerService.PredictGnn | sbi-vishnu/sbi-prototype1/sbi-prototype1/fast_api/app.py:112-138 | the handler answers what the model's GNN reply states: 404, 400, verdict |
| TowerService.FirstRowUnique | sbi-vishnu/sbi-prototype1/sbi-prototype1/fast_api/app.py:90 | the first mapping row of an account is unique |
| TowerService.FirstDevice | sbi-vishnu/sbi-prototype1/sbi-prototype1/fast_api/app.py:90 | the first mapping row names the device both endpoints use |
| TowerService.NotFoundIffUnmapped | sbi-vishnu/sbi-prototype1/sbi-prototype1/fast_api/app.py:86-88 | both endpoints answer 404 with the same detail exactly when the account has no mapping row |
| TowerService.NoLogsIffSilentDevice | sbi-vishnu/sbi-prototype1/sbi-prototype1/fast_api/app.py:94-95 | for a mapped account both endpoints answer 400 exactly when its device has no logs, before any encoding |
| TowerService.LstmUsesLastFive | sbi-vishnu/sbi-prototype1/sbi-prototype1/fast_api/app.py:99 | two histories with the same last five towers get the same LSTM answer |
| Texts.NatToString | sbi-vishnu/sbi-prototype1/sbi-prototype1/fast_api/app.py:88 | decimal text: non-empty, digits only, no leading zero |
| Texts.AsciiLower | ps1/prediction.py:269 | lower-casing keeps the length |
| Texts.TrimStart | sbi-vishnu/sbi-prototype1/sbi-prototype1/project/src/components/LastKnownLocation.tsx:26 | the trimmed text is empty iff the text is blank, and otherwise starts with a non-space |
| Texts.TrimStartIsSuffix | sbi-vishnu/sbi-prototype1/sbi-prototype1/project/src/components/LastKnownLocation.tsx:26 | trimming removes a blank prefix only |
| Texts.DigitPrefixLength | sbi-vishnu/sbi-prototype1/sbi-prototype1/project/src/components/LastKnownLocation.tsx:32 | the digit run read by parseInt is maximal |
| Texts.ParseIntOfIntToString | sbi-vishnu/sbi-prototype1/sbi-prototype1/project/src/components/LastKnownLocation.tsx:32 | parseInt reads back the decimal text of any integer |
| Texts.Split | sbi-vishnu/sbi-prototype1/sbi-prototype1/project/src/components/DefaulterPrediction.tsx:40 | splitting yields at least one part |
| Texts.SplitJoin | sbi-vishnu/sbi-prototype1/sbi-prototype1/project/src/components/DefaulterPrediction.tsx:40 | splitting the joined lines at the separator gives the lines back when none holds it |
| Texts.BeforeIrreflexive | sbi-vishnu/sbi-prototype1/sbi-prototype1/fast_api/app.py:91 | timestamp order is irreflexive |
| Texts.BeforeTransitive | sbi-vishnu/sbi-prototype1/sbi-prototype1/fast_api/app.py:91 | timestamp order is transitive |
| Texts.BeforeTotal | sbi-vishnu/sbi-prototype1/sbi-prototype1/fast_api/app.py:91 | distinct timestamps are ordered one way or the other |
| Sets.DistinctCardinality | ps1/prediction.py:303 | a list without repetitions has as many elements as its set |
| ApiClient.DirectoryKeys | sbi-vishnu/sbi-prototype1/sbi-prototype1/project/src/utils/api.ts:19-26 | the directory knows exactly the ids the file lists |
| ApiClient.LaterDuplicatesWin | sbi-vishnu/sbi-prototype1/sbi-prototype1/project/src/utils/api.ts:19-26 | for a repeated id the directory keeps the last entry |
| ApiClient.LocatedMeaning | sbi-vishnu/sbi-prototype1/sbi-prototype1/project/src/utils/api.ts:101-122 | a location call succeeds iff the answer is 2xx and names a known tower; it keeps id and address, moves each coordinate by an offset in [-0.005, 0.005); the two error messages |
| ApiClient.TowerDirectory.constructor | sbi-vishnu/sbi-prototype1/sbi-prototype1/project/src/utils/api.ts:13 | the table starts empty |
| ApiClient.TowerDirectory.Load | sbi-vishnu/sbi-prototype1/sbi-prototype1/project/src/utils/api.ts:15-27 | a loaded file installs the directory of its entries; a failed load changes nothing |
| ApiClient.TowerDirectory.PredictLstm | sbi-vishnu/sbi-prototype1/sbi-prototype1/project/src/utils/api.ts:90-127 | the call resolves to the located result of the LSTM endpoint's answer |
| ApiClient.TowerDirectory.PredictGnn | sbi-vishnu/sbi-prototype1/sbi-prototype1/project/src/utils/api.ts:129-166 | the call resolves to the located result of the GNN endpoint's answer |
| ApiClient.TowerDirectory.Locate | sbi-vishnu/sbi-prototype1/sbi-prototype1/project/src/utils/api.ts:101-122 | the shared join computes the located result |
| ApiClient.EmptyDirectoryRejects | sbi-vishnu/sbi-prototype1/sbi-prototype1/project/src/utils/api.ts:109-111 | before a load every location call fails |
| ApiClient.NonNumericCountsAsZero | sbi-vishnu/sbi-prototype1/sbi-prototype1/project/src/utils/api.ts:43-47 | a field that does not parse counts as 0 |
| ApiClient.Clamp | sbi-vishnu/sbi-prototype1/sbi-prototype1/project/src/utils/api.ts:77 | the score lies in [0, 100] and is unchanged inside it |
| ApiClient.RiskScore | sbi-vishnu/sbi-prototype1/sbi-prototype1/project/src/utils/api.ts:74-77 | the final score lies in [0, 100] |
| ApiClient.Assessment | sbi-vishnu/sbi-prototype1/sbi-prototype1/project/src/utils/api.ts:79-80 | a defaulter iff the score exceeds 50; confidence in [50, 100], the rounded score or its complement |
| ApiClient.PredictDefaulter | sbi-vishnu/sbi-prototype1/sbi-prototype1/project/src/utils/api.ts:38-86 | the term-by-term accumulation equals the assessment |
| ApiClient.EachLoanAddsFive | sbi-vishnu/sbi-prototype1/sbi-prototype1/project/src/utils/api.ts:67 | each existing loan adds 5 to the base risk |
| ApiClient.EmploymentPremium | sbi-vishnu/sbi-prototype1/sbi-prototype1/project/src/utils/api.ts:70-71 | unemployed adds 40 and self-employed 15 against any other type |
| ApiClient.NoiseBounded | sbi-vishnu/sbi-prototype1/sbi-prototype1/project/src/utils/api.ts:74 | the random term moves the score by an amount in [-10, 10) |
| DefaulterScreen.Slice | sbi-vishnu/sbi-prototype1/sbi-prototype1/project/src/components/DefaulterPrediction.tsx:124-125 | the slice is clamped to the list and entry k is entry start+k |
| DefaulterScreen.TotalPages | sbi-vishnu/sbi-prototype1/sbi-prototype1/project/src/components/DefaulterPrediction.tsx:126 | the page count covers the rows and is the least such |
| DefaulterScreen.PagePairing | sbi-vishnu/sbi-prototype1/sbi-prototype1/project/src/components/DefaulterPrediction.tsx:124-125 | row k of a page sits beside prediction k of the same page: both are entry (page-1)*10+k |
| DefaulterScreen.EveryRowHasAPage | sbi-vishnu/sbi-prototype1/sbi-prototype1/project/src/components/DefaulterPrediction.tsx:124-126 | every row is shown on page i/10+1, which exists, at position i%10 |
| DefaulterScreen.PageEntry | sbi-vishnu/sbi-prototype1/sbi-prototype1/project/src/components/DefaulterPrediction.tsx:125 | position k of a page is entry (page-1)*10+k when it exists |
| DefaulterScreen.BatchPredictionsField | sbi-vishnu/sbi-prototype1/sbi-prototype1/project/src/components/DefaulterPrediction.tsx:110 | the client reads the batch answer's result objects |
| DefaulterScreen.ActionsFollowBatch | sbi-vishnu/sbi-prototype1/sbi-prototype1/project/src/components/DefaulterPrediction.tsx:181-192 | the row actions are offered exactly for the rows whose batch prediction is 1 |
| DefaulterScreen.FieldText | sbi-vishnu/sbi-prototype1/sbi-prototype1/project/src/components/DefaulterPrediction.tsx:40 | a field's text, or 'N/A' when absent or empty, so no detail line has an empty value |
| DefaulterScreen.FieldLines | sbi-vishnu/sbi-prototype1/sbi-prototype1/project/src/components/DefaulterPrediction.tsx:28-40 | thirteen lines 'FIELD: value' in the fixed order |
| DefaulterScreen.EmailListsTheFields | sbi-vishnu/sbi-prototype1/sbi-prototype1/project/src/components/DefaulterPrediction.tsx:34-47 | the body is the fixed head and tail around a detail section that splits back into the field lines |
| DefaulterScreen.ZeroTargetIsPrinted | sbi-vishnu/sbi-prototype1/sbi-prototype1/project/src/components/DefaulterPrediction.tsx:40 | a TARGET of '0' is printed, not replaced by 'N/A' |
| DefaulterScreen.SubjectNamesTheAccount | sbi-vishnu/sbi-prototype1/sbi-prototype1/project/src/components/DefaulterPrediction.tsx:50 | the subject names the account id, or 'Account Update' |
| DefaulterScreen.DefaulterPrediction.constructor | sbi-vishnu/sbi-prototype1/sbi-prototype1/project/src/components/DefaulterPrediction.tsx:10-19 | no file, not loading, empty table, page 1, no e-mail state |
| DefaulterScreen.DefaulterPrediction.ChooseFile | sbi-vishnu/sbi-prototype1/sbi-prototype1/project/src/components/DefaulterPrediction.tsx:23-25 | the first chosen file, if any, replaces the file; nothing else changes |
| DefaulterScreen.DefaulterPrediction.BeginSubmit | sbi-vishnu/sbi-prototype1/sbi-prototype1/project/src/components/DefaulterPrediction.tsx:83-90 | without a file nothing changes; otherwise loading starts, the table empties, page 1 |
| DefaulterScreen.DefaulterPrediction.CompleteSubmit | sbi-vishnu/sbi-prototype1/sbi-prototype1/project/src/components/DefaulterPrediction.tsx:95-121 | an answer shows its rows and predictions; a failure leaves the table empty; loading ends |
| DefaulterScreen.DefaulterPrediction.PreviousPage | sbi-vishnu/sbi-prototype1/sbi-prototype1/project/src/components/DefaulterPrediction.tsx:208-210 | one page back, never below 1; nothing else on the screen changes |
| DefaulterScreen.DefaulterPrediction.NextPage | sbi-vishnu/sbi-prototype1/sbi-prototype1/project/src/components/DefaulterPrediction.tsx:211-213 | one page on, never past the last; nothing else on the screen changes |
| DefaulterScreen.DefaulterPrediction.NotifyUser | sbi-vishnu/sbi-prototype1/sbi-prototype1/project/src/components/DefaulterPrediction.tsx:55-59 | the row's e-mail is shown in the modal |
| DefaulterScreen.DefaulterPrediction.CloseModal | sbi-vishnu/sbi-prototype1/sbi-prototype1/project/src/components/DefaulterPrediction.tsx:228 | the modal closes, its content is kept |
| DefaulterScreen.DefaulterPrediction.BeginSendEmail | sbi-vishnu/sbi-prototype1/sbi-prototype1/project/src/components/DefaulterPrediction.tsx:61-64 | without content nothing happens; otherwise the send is marked in progress |
| DefaulterScreen.DefaulterPrediction.CompleteSendEmail | sbi-vishnu/sbi-prototype1/sbi-prototype1/project/src/components/DefaulterPrediction.tsx:70-79 | sent, modal closed, progress cleared |
| DefaulterScreen.DefaulterPrediction.ClearSentNotice | sbi-vishnu/sbi-prototype1/sbi-prototype1/project/src/components/DefaulterPrediction.tsx:74 | the sent notice is cleared |
| LocationScreen.InitialAccountId | sbi-vishnu/sbi-prototype1/sbi-prototype1/project/src/components/LastKnownLocation.tsx:16 | never empty; the default without navigation state; a non-empty text id is kept |
| LocationScreen.NumericAccountIdRoundTrips | sbi-vishnu/sbi-prototype1/sbi-prototype1/project/src/components/LastKnownLocation.tsx:16 | a numeric id passed by navigation reads back as the same number |
| LocationScreen.Comparison | sbi-vishnu/sbi-prototype1/sbi-prototype1/project/src/components/LastKnownLocation.tsx:283-291 | shown iff both cards are; 'agree' iff the tower ids are equal |
| LocationScreen.LastKnownLocation.constructor | sbi-vishnu/sbi-prototype1/sbi-prototype1/project/src/components/LastKnownLocation.tsx:15-22 | the initial id, nothing loading, no cards |
| LocationScreen.LastKnownLocation.SetAccountId | sbi-vishnu/sbi-prototype1/sbi-prototype1/project/src/components/LastKnownLocation.tsx:159 | sets the id, nothing else |
| LocationScreen.LastKnownLocation.BeginLstm | sbi-vishnu/sbi-prototype1/sbi-prototype1/project/src/components/LastKnownLocation.tsx:24-32 | a blank id sends nothing and changes nothing; otherwise LSTM loading, card cleared, request carries parseInt of the id; GNN side untouched |
| LocationScreen.LastKnownLocation.CompleteLstm | sbi-vishnu/sbi-prototype1/sbi-prototype1/project/src/components/LastKnownLocation.tsx:32-41 | a success shows the card with the time; a failure keeps it; loading ends |
| LocationScreen.LastKnownLocation.BeginGnn | sbi-vishnu/sbi-prototype1/sbi-prototype1/project/src/components/LastKnownLocation.tsx:44-52 | as BeginLstm for the GNN side; the LSTM side untouched |
| LocationScreen.LastKnownLocation.CompleteGnn | sbi-vishnu/sbi-prototype1/sbi-prototype1/project/src/components/LastKnownLocation.tsx:52-61 | as CompleteLstm for the GNN side |
| LoanScreen.RiskLabel | sbi-vishnu/sbi-prototype1/sbi-prototype1/project/src/components/LoanApproval.tsx:19-25 | 0 is Low Risk, 1 is High Risk, anything else the Unknown label with the value's JavaScript text |
| LoanScreen.RiskLabelIff | sbi-vishnu/sbi-prototype1/sbi-prototype1/project/src/components/LoanApproval.tsx:19-25 | Low Risk is shown iff TARGET is the number 0, High Risk iff it is the number 1 |
| LoanScreen.OnlyNumbersAreRated | sbi-vishnu/sbi-prototype1/sbi-prototype1/project/src/components/LoanApproval.tsx:19-25 | the text '0', a missing TARGET and the number 2 are all labelled Unknown |
| LoanScreen.LoanApprover.constructor | sbi-vishnu/sbi-prototype1/sbi-prototype1/project/src/components/LoanApproval.tsx:5-7 | all three texts empty |
| LoanScreen.LoanApprover.SetUserId | sbi-vishnu/sbi-prototype1/sbi-prototype1/project/src/components/LoanApproval.tsx:43 | sets the id, nothing else |
| LoanScreen.LoanApprover.BeginSubmit | sbi-vishnu/sbi-prototype1/sbi-prototype1/project/src/components/LoanApproval.tsx:8-14 | both messages cleared; the request URL is the back end's `/target/` route followed by the id as typed |
| LoanScreen.LoanApprover.CompleteSubmit | sbi-vishnu/sbi-prototype1/sbi-prototype1/project/src/components/LoanApproval.tsx:14-28 | an answer sets the risk label, a failure the error message; after a begin exactly one of them shows |
| LandingScreen.FormData.With | sbi-vishnu/sbi-prototype1/sbi-prototype1/project/src/components/LandingPage.tsx:34-39 | the named field takes the value, every other field is unchanged |
| LandingScreen.LoginIgnoresSignupFields | sbi-vishnu/sbi-prototype1/sbi-prototype1/project/src/components/LandingPage.tsx:21-24 | login validation reads only e-mail and password |
| LandingScreen.SignupIsStricter | sbi-vishnu/sbi-prototype1/sbi-prototype1/project/src/components/LandingPage.tsx:21-30 | any form sign-up accepts, login accepts; mismatched passwords pass login but not sign-up |
| LandingScreen.LandingPage.constructor | sbi-vishnu/sbi-prototype1/sbi-prototype1/project/src/components/LandingPage.tsx:7-15 | login mode, password hidden, empty form, no navigation |
| LandingScreen.LandingPage.Submit | sbi-vishnu/sbi-prototype1/sbi-prototype1/project/src/components/LandingPage.tsx:18-32 | navigates home exactly when validation passes in the current mode; form and mode unchanged |
| LandingScreen.LandingPage.InputChange | sbi-vishnu/sbi-prototype1/sbi-prototype1/project/src/components/LandingPage.tsx:34-39 | the named field is set, nothing else |
| LandingScreen.LandingPage.ChooseLogin | sbi-vishnu/sbi-prototype1/sbi-prototype1/project/src/components/LandingPage.tsx:142 | login mode |
| LandingScreen.LandingPage.ChooseSignup | sbi-vishnu/sbi-prototype1/sbi-prototype1/project/src/components/LandingPage.tsx:152 | sign-up mode |
| LandingScreen.LandingPage.ToggleMode | sbi-vishnu/sbi-prototype1/sbi-prototype1/project/src/components/LandingPage.tsx:258 | the mode flips |
| LandingScreen.LandingPage.TogglePassword | sbi-vishnu/sbi-prototype1/sbi-prototype1/project/src/components/LandingPage.tsx:221 | password visibility flips |
| ModelFileGen.KeyLineOnlyForUniqueId | DB_api/fast_api/g.py:23-26 | a column line carries the primary-key suffix iff its column is UNIQUE_ID |
| ModelFileGen.ColumnLines | DB_api/fast_api/g.py:21-26 | one line per column |
| ModelFileGen.ColumnLinesAt | DB_api/fast_api/g.py:21-26 | line i is column i's |
| ModelFileGen.RunOfMapped | DB_api/fast_api/g.py:21-26 | with every dtype mapped the loop appends the column lines and raises nothing |
| ModelFileGen.ErrorStops | DB_api/fast_api/g.py:22 | after a KeyError later columns write nothing |
| ModelFileGen.RunAtFirstUnmapped | DB_api/fast_api/g.py:22 | at the first unmapped dtype the file keeps the lines before it and the error names that dtype |
| ModelFileGen.ErrorIffUnmapped | DB_api/fast_api/g.py:5-22 | a KeyError is raised iff some dtype is outside the map |
| ModelFileGen.OutputMeaning | DB_api/fast_api/g.py:14-26 | the file is the header and one line per column, or the header and the lines before the first unmapped dtype with its KeyError |
| ModelFileGen.Generate | DB_api/fast_api/g.py:14-26 | the method's chunks and error are the model's output |

## Specification functions

The functions below define what the source computes. They carry no contract of their own; the members of the table above state their properties.

| definition | source | defines |
|---|---|---|
| Prediction.FeatureMismatch | ps1/prediction.py:138 | the width-mismatch message a fitted model raises |
| Prediction.Stage2File | ps1/prediction.py:249-271 | the artifact file each stage-2 model is read from: XGBoost json, CatBoost cbm, the others lower-cased pkl |
| Prediction.AvailableStage2 | ps1/prediction.py:249-271 | the stage-2 names whose artifact file is present |
| Prediction.BaseProbabilities | ps1/prediction.py:159-166 | the present base models' probabilities in name order, or the first model's error |
| Prediction.TwoStagePredictor.Predicted | ps1/prediction.py:124-185 | what predict returns, or the error it raises, branch by branch |
| Prediction.TwoStagePredictor.BatchPredicted | ps1/prediction.py:187-195 | what predict_batch returns: one predict per single-row slice, the first error aborting |
| Preprocessing.IsCategorical | ps1/preprocessing.py:139 | a column of object dtype, one still holding text |
| Preprocessing.AsText | ps1/preprocessing.py:142 | the text astype(str) gives a cell |
| Preprocessing.CategoryCode | ps1/preprocessing.py:163 | a value's Categorical code: the number of distinct values sorted before it |
| Preprocessing.Encoded | ps1/preprocessing.py:141-163 | a column after encoding: its codes when categorical, its cells otherwise |
| Preprocessing.EncodedFrame | ps1/preprocessing.py:139-165 | the encoding step on a whole frame, failing as a whole on a rejected column |
| Preprocessing.Handled | ps1/preprocessing.py:129-165 | _handle_missing_and_encode with fit false: placeholders, then encoding |
| Preprocessing.Ensured | ps1/preprocessing.py:167-184 | _ensure_columns: the frame as is without a schema, else exactly the schema's columns |
| Preprocessing.Pipeline | ps1/preprocessing.py:86-95 | impute then scale; the NoneType error for a component not loaded when its turn comes; a transform's own error passes through |
| Preprocessing.DataPreprocessor.ImputerOf | ps1/preprocessing.py:88 | the imputer of a stage |
| Preprocessing.DataPreprocessor.ScalerOf | ps1/preprocessing.py:93 | the scaler of a stage |
| Preprocessing.DataPreprocessor.IsLoaded | ps1/preprocessing.py:253-258 | is_loaded: the stage-1 scaler and imputer are both present |
| Preprocessing.DataPreprocessor.Preprocessed | ps1/preprocessing.py:76-127 | what preprocess returns for a stage, or the error it raises |
| CsvToApi.MissingColumns | ps1/csv_to_api.py:53 | the expected columns the frame lacks |
| CsvToApi.Payload | ps1/csv_to_api.py:39-64 | what load_and_prepare_data returns, or the missing columns it complains about |
| CsvToApi.ItemPrediction | ps1/csv_to_api.py:98-109 | what one response item contributes; nothing for an empty object |
| CsvToApi.ItemPredictions | ps1/csv_to_api.py:97-109 | the contributions of the items in order |
| CsvToApi.Extracted | ps1/csv_to_api.py:95-112 | the extraction as written: nothing unless the response is a list |
| CsvToApi.ExtractFromResponse | ps1/csv_to_api.py:95-109 | the corrected extraction: the batch answer's predictions list read item by item |
| FraudApi.Outcome | ps1/app.py:162-170 | what preprocessing and predicting one request yields, or the error raised |
| FraudApi.Collect | ps1/app.py:159-170 | the outcomes in order, or the first error among them |
| FraudApi.BatchAnswer | ps1/app.py:151-183 | what /predict_batch answers: the results and their count, or the 500 |
| FraudApi.ResultJson | ps1/prediction.py:141-183 | a predictor result as the JSON object the service sends |
| FraudApi.BatchResponseJson | ps1/app.py:174-179 | the batch answer as JSON, predictions first |
| TowerService.DeviceIds | sbi-vishnu/sbi-prototype1/sbi-prototype1/fast_api/app.py:64 | the groupby keys: each device with logs once, ascending |
| TowerService.DeviceChain | sbi-vishnu/sbi-prototype1/sbi-prototype1/fast_api/app.py:65-66 | one device's edges through its towers in timestamp order |
| TowerService.GraphEdges | sbi-vishnu/sbi-prototype1/sbi-prototype1/fast_api/app.py:63-66 | the edges of the given devices, device after device |
| TowerService.Edges | sbi-vishnu/sbi-prototype1/sbi-prototype1/fast_api/app.py:59-66 | the start-up edge list, or the encoder's error for an unknown tower |
| TowerService.NotFound | sbi-vishnu/sbi-prototype1/sbi-prototype1/fast_api/app.py:88 | the 404 detail naming the account |
| TowerService.DevicesOf | sbi-vishnu/sbi-prototype1/sbi-prototype1/fast_api/app.py:86 | the devices mapped to an account, in row order |
| TowerService.LstmReply | sbi-vishnu/sbi-prototype1/sbi-prototype1/fast_api/app.py:83-110 | what /predict/lstm answers |
| TowerService.GnnReply | sbi-vishnu/sbi-prototype1/sbi-prototype1/fast_api/app.py:112-138 | what /predict/gnn answers |
| ApiClient.Directory | sbi-vishnu/sbi-prototype1/sbi-prototype1/project/src/utils/api.ts:19-26 | the reduce over the tower file: each entry overwrites its id's slot |
| ApiClient.Jitter | sbi-vishnu/sbi-prototype1/sbi-prototype1/project/src/utils/api.ts:114-115 | the coordinate offset of one random draw |
| ApiClient.Located | sbi-vishnu/sbi-prototype1/sbi-prototype1/project/src/utils/api.ts:101-122 | what a location call resolves to, or the message it rejects with |
| ApiClient.FieldValue | sbi-vishnu/sbi-prototype1/sbi-prototype1/project/src/utils/api.ts:43-47 | parseInt of a field, 0 when it is not a number |
| ApiClient.IncomeRisk | sbi-vishnu/sbi-prototype1/sbi-prototype1/project/src/utils/api.ts:53-56 | the income-to-loan term, with division by zero spelled out |
| ApiClient.CreditRisk | sbi-vishnu/sbi-prototype1/sbi-prototype1/project/src/utils/api.ts:59-61 | the credit-score term |
| ApiClient.AgeRisk | sbi-vishnu/sbi-prototype1/sbi-prototype1/project/src/utils/api.ts:64 | the age term |
| ApiClient.EmploymentRisk | sbi-vishnu/sbi-prototype1/sbi-prototype1/project/src/utils/api.ts:70-71 | the employment term |
| ApiClient.BaseRisk | sbi-vishnu/sbi-prototype1/sbi-prototype1/project/src/utils/api.ts:50-71 | the deterministic part of the score: the sum of the five terms |
| ApiClient.Round | sbi-vishnu/sbi-prototype1/sbi-prototype1/project/src/utils/api.ts:80 | Math.round: the nearest integer, halves up |
| DefaulterScreen.Page | sbi-vishnu/sbi-prototype1/sbi-prototype1/project/src/components/DefaulterPrediction.tsx:124-125 | the entries a page shows |
| DefaulterScreen.IdCell | sbi-vishnu/sbi-prototype1/sbi-prototype1/project/src/components/DefaulterPrediction.tsx:176 | the id cell: the UNIQUE_ID value or the dash |
| DefaulterScreen.PredictionCell | sbi-vishnu/sbi-prototype1/sbi-prototype1/project/src/components/DefaulterPrediction.tsx:178 | the prediction cell's value, or nothing where the dash is shown |
| DefaulterScreen.ActionsShown | sbi-vishnu/sbi-prototype1/sbi-prototype1/project/src/components/DefaulterPrediction.tsx:181-192 | the action buttons show only where the prediction is the number 1 |
| DefaulterScreen.PredictionsField | sbi-vishnu/sbi-prototype1/sbi-prototype1/project/src/components/DefaulterPrediction.tsx:110 | the predictions list read from the batch answer, empty when absent |
| DefaulterScreen.EmailFor | sbi-vishnu/sbi-prototype1/sbi-prototype1/project/src/components/DefaulterPrediction.tsx:27-53 | generateEmailContent: the subject and the body |
| DefaulterScreen.Subject | sbi-vishnu/sbi-prototype1/sbi-prototype1/project/src/components/DefaulterPrediction.tsx:50 | the subject with the account id or Account Update |
| DefaulterScreen.Body | sbi-vishnu/sbi-prototype1/sbi-prototype1/project/src/components/DefaulterPrediction.tsx:34-47 | the fixed head, the field lines joined by newlines, the fixed tail |
| DefaulterScreen.FieldOr | sbi-vishnu/sbi-prototype1/sbi-prototype1/project/src/components/DefaulterPrediction.tsx:50 | a field's value, or a fallback for an absent or empty one |
| LoanScreen.TargetOf | sbi-vishnu/sbi-prototype1/sbi-prototype1/project/src/components/LoanApproval.tsx:16 | res.data?.TARGET, nothing when undefined |
| LoanScreen.JsText | sbi-vishnu/sbi-prototype1/sbi-prototype1/project/src/components/LoanApproval.tsx:24 | JavaScript String() of a value or of undefined |
| LoanScreen.JsonText | sbi-vishnu/sbi-prototype1/sbi-prototype1/project/src/components/LoanApproval.tsx:24 | JavaScript String() of a JSON value |
| LoanScreen.ItemsText | sbi-vishnu/sbi-prototype1/sbi-prototype1/project/src/components/LoanApproval.tsx:24 | an array's String(): its items joined by commas, null as empty |
| LandingScreen.Accepts | sbi-vishnu/sbi-prototype1/sbi-prototype1/project/src/components/LandingPage.tsx:21-31 | whether a submit in the given mode passes the handler's checks |
| ModelFileGen.ColumnType | DB_api/fast_api/g.py:5-9 | the dtype map; nothing for any other dtype |
| ModelFileGen.Header | DB_api/fast_api/g.py:15-19 | the chunks written before the column loop |
| ModelFileGen.ColumnLine | DB_api/fast_api/g.py:23-26 | one Column line, primary key and index only for UNIQUE_ID |
| ModelFileGen.Step | DB_api/fast_api/g.py:21-26 | one turn of the loop, or the KeyError |
| ModelFileGen.Run | DB_api/fast_api/g.py:21-26 | the loop over the columns from a given start |
| ModelFileGen.Output | DB_api/fast_api/g.py:14-26 | the whole file the script writes |
| Texts.IntToString | sbi-vishnu/sbi-prototype1/sbi-prototype1/fast_api/app.py:88 | decimal text of an integer, with a minus sign when negative |
| Texts.ParseInt | sbi-vishnu/sbi-prototype1/sbi-prototype1/project/src/components/LastKnownLocation.tsx:32 | JavaScript parseInt without a radix: blanks, one sign, digits; nothing without digits |
| Texts.Join | sbi-vishnu/sbi-prototype1/sbi-prototype1/project/src/components/DefaulterPrediction.tsx:40 | Array.prototype.join with a separator |
| Texts.Before | sbi-vishnu/sbi-prototype1/sbi-prototype1/fast_api/app.py:91 | Python's string order: code-point lexicographic |

## Left out

- Model training and the fitted transforms: the `fit_*`, `train_*` and `save_*` methods, and the internals of XGBoost, LightGBM, CatBoost, scikit-learn, Keras and GraphSAGE. A model is its probability or score function, and the imputer and scaler are opaque functions from a frame to a result: either the transformed frame or the error the transform raises. Which frames a fitted transform rejects (a different width or different column names, as when there is no schema and `_ensure_columns` returns its input, or an all-missing training column dropped by the imputer) is not modelled.
- File, database and network I/O:
  - `pd.read_csv`, the median file, `joblib` and the model files. Loading takes as input the set of files present and what each file holds.
  - `fetch`, `axios` and `Papa.parse`: each handler receives how its call ended.
  - The output CSV of the batch client, the FastAPI and CORS setup, the health endpoints and the database wrapper.
- Parsing JSON text and printing floats. Values arrive already parsed. The text of a non-integral number is the parameter `numberText` or `floatRepr`. Integral numbers print in decimal; the exponent form JavaScript uses from 1e21 on is not modelled.
- Floating point. Probabilities, coordinates and scores are Dafny reals. `loanAmount / income` with income 0 is stated explicitly in `ApiClient.IncomeRisk`: 30 for a positive amount, 0 otherwise. That is what JavaScript's Infinity and NaN comparisons give.
- `Texts.ParseInt`: exact for every integer; JavaScript loses precision past 2^53.
- Asynchronous ordering. Each handler half is atomic: a second submit that overlaps the first, and updates after the component unmounts, are not modelled.
- Timers and delays (`setTimeout`, the two-second mock delays). `DefaulterScreen.DefaulterPrediction.ClearSentNotice` is the three-second timer's effect, called on its own. The `catch` branch of the e-mail send is not modelled, because nothing in the `try` can throw.
- The JavaScript prototype: the tower directory is a map, so an id such as `toString`, which a plain object would inherit, is not found.
- `TowerService.SortByTime`: a stable insertion sort. Pandas' default sort does not promise an order between logs with equal timestamps, so the order of such ties is left unsaid.
- `TowerService.PadWindow`: requires a non-empty sequence, which the handler's 400 check guarantees before padding.
- `Preprocessing.IsCategorical`: a column counts as categorical when some cell holds text. This stands in for pandas' `object` dtype inference.
- `ModelFileGen.Generate`: pandas' dtype inference is not modelled. A column's dtype is an input, and `Other` stands for any dtype but `float64`, `int64` and `object`. The five header writes are one assignment of the five chunks.
- `DefaulterScreen.PredictionsField`: a `predictions` field that is present but not a list is read as an empty list. For a string the page shows the same: `|| []` keeps it, `slice` works on it, and each cell's `prediction` is undefined, so every row shows the dash. For a non-zero number, `true` or an object, the `slice` call at DefaulterPrediction.tsx:125 throws while rendering; the model does not capture that failure.
- `LandingScreen.LandingPage.InputChange`: the field is one of the five named inputs, because every input of the page has one of those `name` attributes.
- `LoanScreen.LoanApprover.BeginSubmit`, `LandingScreen.LandingPage.Submit`: the browser's form validation is not modelled. The inputs' `required` attributes (LoanApproval.tsx:46, LandingPage.tsx:176-239) and `type="email"` (LandingPage.tsx:197) keep the browser from calling `handleSubmit` on an empty field or a malformed e-mail address. The models run the handler on any input, so `Submit` navigates in login mode with the e-mail "x".
- `CsvToApi.FillMedians`: pandas 2.x behaviour is assumed, where the chained `df[col].fillna(median_value, inplace=True)` (ps1/csv_to_api.py:51) fills the frame's own column. Under pandas' Copy-on-Write, the default from pandas 3.0, that call changes a temporary copy and leaves `df` unfilled.
- `Preprocessing.DataPreprocessor.PreprocessDispatch`: the stage error is stated in one direction only. A valid stage can end in a transform's own error, which in the model is arbitrary text and so is not proved to differ from the stage error's text.
- Frames are values: a Python `copy()` before an in-place change is what a Dafny value gives for free, so "the caller's frame is not mutated" holds by construction.

## Findings

| source | as written | input that shows it | evidently intended | confidence | as-written member | corrected member |
|---|---|---|---|---|---|---|
| ps1/csv_to_api.py:96 | the extraction accepts only a list response and otherwise prints "Unexpected API response format." and saves nothing | any answer of `/predict_batch` in ps1/app.py:174-179, which is an object with a `predictions` list | read the `predictions` list of the batch answer and take each result's `prediction` | not executed | CsvToApi.BatchEnvelopeRejected | CsvToApi.CorrectedReadsBatchResponse |
