/**
 * The defaulter-prediction screen: a CSV upload posted to the fraud
 * service's batch endpoint, a paged table that pairs the i-th CSV row with
 * the i-th prediction, row actions offered only for predicted defaulters,
 * and a notification e-mail built from a fixed list of fields. CSV rows are
 * maps from header to the cell's text (the parser is not asked to convert
 * types). Parsing, the request and the timers are outside the model: each
 * handler receives what they produced.
 */
module DefaulterScreen {
  import opened Wrappers
  import opened Texts
  import opened Json
  import FraudApi
  import Prediction

  /** A parsed CSV row. */
  type Row = map<string, string>

  const ResultsPerPage := 10
  const UniqueIdField := "UNIQUE_ID"
  /** The placeholder a missing table cell shows. */
  const Dash := "—"

  // ---------------------------------------------------------------------
  // Pagination
  // ---------------------------------------------------------------------

  /** JavaScript's `s.slice(start, end)` for non-negative bounds: clamped to the sequence. */
  function Slice<T>(s: seq<T>, start: nat, end: nat): (r: seq<T>)
    ensures |r| == (if end <= start || start >= |s| then 0 else (if end < |s| then end else |s|) - start)
    ensures forall k :: 0 <= k < |r| ==> r[k] == s[start + k]
  {
    var e := if end < |s| then end else |s|;
    if start >= e then [] else s[start..e]
  }

  /** The entries page `page` shows. */
  function Page<T>(s: seq<T>, page: nat): (shown: seq<T>)
    requires page >= 1
  {
    Slice(s, (page - 1) * ResultsPerPage, page * ResultsPerPage)
  }

  /** `Math.ceil(n / 10)`. */
  function TotalPages(n: nat): (t: nat)
    ensures t * ResultsPerPage >= n
    ensures n > 0 ==> t >= 1 && (t - 1) * ResultsPerPage < n
  {
    (n + ResultsPerPage - 1) / ResultsPerPage
  }

  /**
   * Rows and predictions are paged with the same window, so the k-th row
   * of a page sits beside the k-th prediction of that page: both are entry
   * `(page - 1) * 10 + k` of their lists.
   */
  lemma PagePairing<R, P>(rows: seq<R>, preds: seq<P>, page: nat, k: nat)
    requires page >= 1 && k < |Page(rows, page)|
    ensures Page(rows, page)[k] == rows[(page - 1) * ResultsPerPage + k]
    ensures k < |Page(preds, page)| <==> (page - 1) * ResultsPerPage + k < |preds|
    ensures k < |Page(preds, page)| ==> Page(preds, page)[k] == preds[(page - 1) * ResultsPerPage + k]
  {
  }

  /** Every row is shown exactly on page `i / 10 + 1`, which exists, at position `i % 10`. */
  lemma EveryRowHasAPage<R>(rows: seq<R>, i: nat)
    requires i < |rows|
    ensures var page := i / ResultsPerPage + 1;
      && 1 <= page <= TotalPages(|rows|)
      && i % ResultsPerPage < |Page(rows, page)|
      && Page(rows, page)[i % ResultsPerPage] == rows[i]
  {
    var page := i / ResultsPerPage + 1;
    assert (page - 1) * ResultsPerPage + i % ResultsPerPage == i;
    assert TotalPages(|rows|) * ResultsPerPage >= |rows|;
  }

  // ---------------------------------------------------------------------
  // The table cells
  // ---------------------------------------------------------------------

  /** `row[UNIQUE_ID_FIELD] ?? "—"`. */
  function IdCell(row: Row): (cell: string) {
    if UniqueIdField in row then row[UniqueIdField] else Dash
  }

  /**
   * `paginatedPredictions[k]?.prediction`, or `None` where the table shows
   * "—": no k-th prediction, one that is not an object, or one without a
   * non-null `prediction`.
   */
  function PredictionCell(preds: seq<Json>, k: nat): (cell: Option<Json>) {
    if k >= |preds| then None
    else
      match preds[k]
      case JObject(fields) =>
        (match Get(fields, "prediction")
         case Some(JNull) => None
         case v => v)
      case _ => None
  }

  /** The location and notify buttons: only where the prediction is exactly the number 1. */
  predicate ActionsShown(preds: seq<Json>, k: nat) {
    PredictionCell(preds, k) == Some(JNum(1.0))
  }

  /** `apiResult.predictions || []`. */
  function PredictionsField(body: Json): (preds: seq<Json>) {
    match body
    case JObject(fields) =>
      (match Get(fields, "predictions")
       case Some(JArray(items)) => items
       case _ => [])
    case _ => []
  }

  lemma ResultJsonCell(res: Prediction.PredictionResult)
    ensures (match FraudApi.ResultJson(res)
             case JObject(fields) => Get(fields, "prediction")
             case _ => None) == Some(JNum(res.prediction as real))
  {
    assert FraudApi.ResultJson(res).fields[2] == ("prediction", JNum(res.prediction as real));
  }

  /** Position k < 10 of a page is entry `(page - 1) * 10 + k` of the list, when that exists. */
  lemma PageEntry<T>(s: seq<T>, page: nat, k: nat)
    requires page >= 1 && k < ResultsPerPage
    ensures k < |Page(s, page)| <==> (page - 1) * ResultsPerPage + k < |s|
    ensures k < |Page(s, page)| ==> Page(s, page)[k] == s[(page - 1) * ResultsPerPage + k]
  {
    assert (page - 1) * ResultsPerPage + ResultsPerPage == page * ResultsPerPage;
  }

  /** The client reads the batch answer's predictions as the list of result objects. */
  lemma BatchPredictionsField(b: FraudApi.BatchResponse)
    ensures PredictionsField(FraudApi.BatchResponseJson(b))
      == seq(|b.predictions|, i requires 0 <= i < |b.predictions| => FraudApi.ResultJson(b.predictions[i]))
  {
    var items := seq(|b.predictions|, i requires 0 <= i < |b.predictions| => FraudApi.ResultJson(b.predictions[i]));
    assert Get(FraudApi.BatchResponseJson(b).fields, "predictions") == Some(JArray(items));
  }

  /**
   * Against the batch endpoint's answer, the actions of table row k on a
   * page are offered exactly when the batch's prediction for that row's
   * request is 1.
   */
  lemma ActionsFollowBatch(b: FraudApi.BatchResponse, page: nat, k: nat)
    requires page >= 1 && k < ResultsPerPage
    ensures var preds := Page(PredictionsField(FraudApi.BatchResponseJson(b)), page);
      var i := (page - 1) * ResultsPerPage + k;
      ActionsShown(preds, k) <==> i < |b.predictions| && b.predictions[i].prediction == 1
  {
    BatchPredictionsField(b);
    var items := PredictionsField(FraudApi.BatchResponseJson(b));
    PageEntry(items, page, k);
    var i := (page - 1) * ResultsPerPage + k;
    if i < |b.predictions| {
      ResultJsonCell(b.predictions[i]);
    }
  }

  // ---------------------------------------------------------------------
  // The notification e-mail
  // ---------------------------------------------------------------------

  const EmailFields: seq<string> := [
    "UNIQUE_ID", "OUTS", "INSTALAMT", "LOAN_TENURE", "ACCT_RESIDUAL_TENURE",
    "LATEST_NPA_TENURE", "CUST_NO_OF_TIMES_NPA", "LATEST_CR_DAYS",
    "LATEST_DR_DAYS", "PRODUCT_TYPE", "INCOME_BAND1", "TARGET", "NO_OF_INQUIRIES1"]

  /** The template's text before the field lines, once trimmed. */
  const BodyHead := "Dear Customer,\n\nThis is an automated notification regarding your account with State Bank of India.\n\nAccount Details:\n"
  /** The template's text after the field lines, once trimmed. */
  const BodyTail := "\n\nPlease contact your nearest SBI branch for further assistance.\n\nBest regards,\nSBI Analytics Team\nState Bank of India"

  datatype Email = Email(subject: string, body: string)

  /** `userData[field] || 'N/A'`: a field's text, or 'N/A' when it is absent or empty. */
  function FieldText(row: Row, field: string): (t: string)
    ensures field !in row || row[field] == "" ==> t == "N/A"
    ensures field in row && row[field] != "" ==> t == row[field]
    ensures t != ""
  {
    if field in row && row[field] != "" then row[field] else "N/A"
  }

  function FieldLines(row: Row): (lines: seq<string>)
    ensures |lines| == |EmailFields|
    ensures forall i :: 0 <= i < |EmailFields| ==> lines[i] == EmailFields[i] + ": " + FieldText(row, EmailFields[i])
  {
    seq(|EmailFields|, i requires 0 <= i < |EmailFields| => EmailFields[i] + ": " + FieldText(row, EmailFields[i]))
  }

  /** `generateEmailContent`. */
  function EmailFor(row: Row): (email: Email) {
    Email(Subject(row), Body(row))
  }

  function Subject(row: Row): (subject: string) {
    "SBI Account Notification - " + FieldOr(row, UniqueIdField, "Account Update")
  }

  function Body(row: Row): (body: string) {
    BodyHead + Join(FieldLines(row), '\n') + BodyTail
  }

  /** `userData[field] || fallback`. */
  function FieldOr(row: Row, field: string, fallback: string): (t: string) {
    if field in row && row[field] != "" then row[field] else fallback
  }

  /** The part of a body between the fixed head and tail. */
  function DetailSection(body: string): (details: string)
    requires |body| >= |BodyHead| + |BodyTail|
  {
    body[|BodyHead|..|body| - |BodyTail|]
  }

  lemma ThreeParts(a: string, b: string, c: string)
    ensures |a + b + c| >= |a| + |c|
    ensures (a + b + c)[..|a|] == a
    ensures (a + b + c)[|a + b + c| - |c|..] == c
    ensures (a + b + c)[|a|..|a + b + c| - |c|] == b
  {
  }

  /** No field line holds a line break when no field text does. */
  lemma LinesWithoutBreaks(row: Row)
    requires forall f :: f in row ==> '\n' !in row[f]
    ensures forall i :: 0 <= i < |FieldLines(row)| ==> '\n' !in FieldLines(row)[i]
  {
    NamesWithoutBreaks();
    forall i | 0 <= i < |EmailFields|
      ensures '\n' !in FieldLines(row)[i]
    {
      LineWithoutBreaks(EmailFields[i], FieldText(row, EmailFields[i]));
    }
  }

  lemma NamesWithoutBreaks()
    ensures forall i :: 0 <= i < |EmailFields| ==> '\n' !in EmailFields[i]
  {
  }

  lemma LineWithoutBreaks(f: string, t: string)
    requires '\n' !in f && '\n' !in t
    ensures '\n' !in f + ": " + t
  {
    var line := f + ": " + t;
    forall k | 0 <= k < |line|
      ensures line[k] != '\n'
    {
      if k >= |f| + 2 {
        assert line[k] == t[k - |f| - 2];
      } else if k < |f| {
        assert line[k] == f[k];
      }
    }
  }

  /**
   * The e-mail's detail section splits back into the thirteen field lines,
   * in the fixed order, when no field text holds a line break; each reads
   * "FIELD: value", 'N/A' for an absent or empty value.
   */
  lemma EmailListsTheFields(row: Row)
    requires forall f :: f in row ==> '\n' !in row[f]
    ensures var body := Body(row);
      && |body| >= |BodyHead| + |BodyTail|
      && body[..|BodyHead|] == BodyHead
      && body[|body| - |BodyTail|..] == BodyTail
      && Split(DetailSection(body), '\n') == FieldLines(row)
  {
    ThreeParts(BodyHead, Join(FieldLines(row), '\n'), BodyTail);
    LinesWithoutBreaks(row);
    SplitJoin(FieldLines(row), '\n');
  }

  /** CSV cells are text, so a TARGET of "0" is printed as 0, not as 'N/A'. */
  lemma ZeroTargetIsPrinted(row: Row)
    requires "TARGET" in row && row["TARGET"] == "0"
    ensures FieldLines(row)[11] == "TARGET: 0"
  {
  }

  /** The subject names the account, or says 'Account Update' when its id is absent or empty. */
  lemma SubjectNamesTheAccount(row: Row)
    ensures UniqueIdField in row && row[UniqueIdField] != "" ==>
      Subject(row) == "SBI Account Notification - " + row[UniqueIdField]
    ensures UniqueIdField !in row || row[UniqueIdField] == "" ==>
      Subject(row) == "SBI Account Notification - Account Update"
  {
  }

  // ---------------------------------------------------------------------
  // The screen's state
  // ---------------------------------------------------------------------

  /** How the parse-and-post started by a submit ended. */
  datatype Completion =
    | ParseFailed                        // the CSV parser's error callback
    | RequestFailed                      // a thrown fetch, a non-ok status or a body that is not JSON
    | Answered(rows: seq<Row>, body: Json)

  class DefaulterPrediction {
    var file: Option<string>
    var loading: bool
    var results: seq<Row>
    var predictions: seq<Json>
    var currentPage: int
    var sendingEmail: Option<string>
    var emailSent: Option<string>
    var showEmailModal: bool
    var currentEmailContent: Option<Email>

    /** The page is at least 1, and within the page count whenever there are rows. */
    predicate Valid()
      reads this
    {
      currentPage >= 1 && (|results| > 0 ==> currentPage <= TotalPages(|results|))
    }

    constructor()
      ensures Valid()
      ensures file == None && !loading && results == [] && predictions == [] && currentPage == 1
      ensures sendingEmail == None && emailSent == None && !showEmailModal && currentEmailContent == None
    {
      file := None;
      loading := false;
      results := [];
      predictions := [];
      currentPage := 1;
      sendingEmail := None;
      emailSent := None;
      showEmailModal := false;
      currentEmailContent := None;
    }

    /** `handleFileChange`: the first chosen file, if any was chosen. */
    method ChooseFile(files: seq<string>)
      modifies this
      ensures file == (if files == [] then old(file) else Some(files[0]))
      ensures loading == old(loading) && results == old(results) && predictions == old(predictions)
      ensures currentPage == old(currentPage) && sendingEmail == old(sendingEmail) && emailSent == old(emailSent)
      ensures showEmailModal == old(showEmailModal) && currentEmailContent == old(currentEmailContent)
    {
      if files != [] {
        file := Some(files[0]);
      }
    }

    /**
     * `handleSubmit` up to the parse: without a file nothing happens;
     * otherwise loading starts and the table is emptied and back at page 1.
     */
    method BeginSubmit() returns (started: bool)
      requires Valid()
      modifies this
      ensures Valid()
      ensures started <==> old(file).Some?
      ensures !started ==> (loading == old(loading) && results == old(results)
        && predictions == old(predictions) && currentPage == old(currentPage))
      ensures started ==> loading && results == [] && predictions == [] && currentPage == 1
      ensures file == old(file) && sendingEmail == old(sendingEmail) && emailSent == old(emailSent)
      ensures showEmailModal == old(showEmailModal) && currentEmailContent == old(currentEmailContent)
    {
      if file.None? {
        return false;
      }
      loading := true;
      results := [];
      predictions := [];
      currentPage := 1;
      started := true;
    }

    /**
     * The parser's callbacks: on an answer the rows and the answer's
     * predictions are shown; on any failure the table stays empty. Loading
     * ends either way.
     */
    method CompleteSubmit(c: Completion)
      requires Valid() && currentPage == 1
      modifies this
      ensures Valid()
      ensures !loading
      ensures c.Answered? ==> results == c.rows && predictions == PredictionsField(c.body)
      ensures !c.Answered? ==> results == old(results) && predictions == old(predictions)
      ensures currentPage == 1 && file == old(file) && sendingEmail == old(sendingEmail)
      ensures emailSent == old(emailSent) && showEmailModal == old(showEmailModal)
      ensures currentEmailContent == old(currentEmailContent)
    {
      match c {
        case Answered(rows, body) =>
          results := rows;
          predictions := PredictionsField(body);
        case _ =>
      }
      loading := false;
    }

    /** The Previous button: one page back, never below the first. */
    method PreviousPage()
      requires Valid()
      modifies this
      ensures Valid()
      ensures currentPage == if old(currentPage) - 1 > 1 then old(currentPage) - 1 else 1
      ensures results == old(results) && predictions == old(predictions) && loading == old(loading)
      ensures file == old(file) && sendingEmail == old(sendingEmail) && emailSent == old(emailSent)
      ensures showEmailModal == old(showEmailModal) && currentEmailContent == old(currentEmailContent)
    {
      currentPage := if currentPage - 1 > 1 then currentPage - 1 else 1;
    }

    /** The Next button, shown only with rows: one page on, never past the last. */
    method NextPage()
      requires Valid() && |results| > 0
      modifies this
      ensures Valid()
      ensures currentPage == if old(currentPage) + 1 < TotalPages(|results|) then old(currentPage) + 1 else TotalPages(|results|)
      ensures results == old(results) && predictions == old(predictions) && loading == old(loading)
      ensures file == old(file) && sendingEmail == old(sendingEmail) && emailSent == old(emailSent)
      ensures showEmailModal == old(showEmailModal) && currentEmailContent == old(currentEmailContent)
    {
      var totalPages := TotalPages(|results|);
      currentPage := if currentPage + 1 < totalPages then currentPage + 1 else totalPages;
    }

    /** The rows the table shows now. */
    function ShownRows(): (rows: seq<Row>)
      requires Valid()
      reads this
    {
      Page(results, currentPage)
    }

    /** Whether the table row `k` now offers the location and notify actions. */
    predicate RowActions(k: nat)
      requires Valid()
      reads this
    {
      ActionsShown(Page(predictions, currentPage), k)
    }

    /** `handleNotifyUser`: the row's e-mail, shown in the modal. */
    method NotifyUser(row: Row)
      modifies this
      ensures currentEmailContent == Some(EmailFor(row)) && showEmailModal
      ensures sendingEmail == old(sendingEmail) && emailSent == old(emailSent)
      ensures results == old(results) && predictions == old(predictions) && currentPage == old(currentPage)
      ensures loading == old(loading) && file == old(file)
    {
      currentEmailContent := Some(EmailFor(row));
      showEmailModal := true;
    }

    /** Closing the modal, by its cross or Cancel. */
    method CloseModal()
      modifies this
      ensures !showEmailModal && currentEmailContent == old(currentEmailContent)
      ensures sendingEmail == old(sendingEmail) && emailSent == old(emailSent)
      ensures results == old(results) && predictions == old(predictions) && currentPage == old(currentPage)
      ensures loading == old(loading) && file == old(file)
    {
      showEmailModal := false;
    }

    /** `handleSendEmail` up to its delay: a no-op without content, else marks the send in progress. */
    method BeginSendEmail() returns (started: bool)
      modifies this
      ensures started <==> old(currentEmailContent).Some?
      ensures started ==> sendingEmail == Some("sending")
      ensures !started ==> sendingEmail == old(sendingEmail)
      ensures emailSent == old(emailSent) && showEmailModal == old(showEmailModal)
      ensures currentEmailContent == old(currentEmailContent)
      ensures results == old(results) && predictions == old(predictions) && currentPage == old(currentPage)
      ensures loading == old(loading) && file == old(file)
    {
      if currentEmailContent.None? {
        return false;
      }
      sendingEmail := Some("sending");
      started := true;
    }

    /** After the delay: the mail counts as sent, the modal closes and the progress mark is cleared. */
    method CompleteSendEmail()
      modifies this
      ensures emailSent == Some("sent") && !showEmailModal && sendingEmail == None
      ensures currentEmailContent == old(currentEmailContent)
      ensures results == old(results) && predictions == old(predictions) && currentPage == old(currentPage)
      ensures loading == old(loading) && file == old(file)
    {
      emailSent := Some("sent");
      showEmailModal := false;
      sendingEmail := None;
    }

    /** The timer three seconds later clears the sent notice. */
    method ClearSentNotice()
      modifies this
      ensures emailSent == None && sendingEmail == old(sendingEmail) && showEmailModal == old(showEmailModal)
      ensures currentEmailContent == old(currentEmailContent)
      ensures results == old(results) && predictions == old(predictions) && currentPage == old(currentPage)
      ensures loading == old(loading) && file == old(file)
    {
      emailSent := None;
    }
  }
}
