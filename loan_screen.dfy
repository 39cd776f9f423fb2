/**
 * The loan-approver screen: one id field, a request for that account's
 * TARGET value, and either a risk label or an error message. The request
 * is outside the model: the complete half of the submit receives the
 * response body, or `None` when the request failed (a network error or a
 * non-2xx status, on which the HTTP client throws).
 */
module LoanScreen {
  import opened Wrappers
  import opened Texts
  import opened Json

  const RequestFailed := "User not found or API error"

  /** The back end's account-lookup route, before the id. */
  const TargetUrlPrefix := "http://localhost:8000/target/"

  /** `res.data?.TARGET`: `None` for `undefined`. */
  function TargetOf(body: Json): (target: Option<Json>) {
    match body
    case JObject(fields) => Get(fields, "TARGET")
    case _ => None
  }

  /**
   * JavaScript's `String(v)` for a JSON value or `undefined`; numbers other
   * than integers are rendered by `numberText`, JavaScript's shortest
   * round-trip form, which is outside the model.
   */
  function JsText(v: Option<Json>, numberText: real -> string): (t: string)
    decreases v
  {
    match v
    case None => "undefined"
    case Some(j) => JsonText(j, numberText)
  }

  function JsonText(j: Json, numberText: real -> string): (t: string)
    decreases j, 1
  {
    match j
    case JNull => "null"
    case JBool(b) => if b then "true" else "false"
    case JNum(n) => if n == n.Floor as real then IntToString(n.Floor) else numberText(n)
    case JStr(s) => s
    case JArray(items) => ItemsText(items, numberText)
    case JObject(_) => "[object Object]"
  }

  /** `Array.prototype.join(',')`, where `null` elements print as empty text. */
  function ItemsText(items: seq<Json>, numberText: real -> string): (t: string)
    decreases items, 0
  {
    if items == [] then ""
    else
      (if items[0] == JNull then "" else JsonText(items[0], numberText))
      + (if |items| == 1 then "" else "," + ItemsText(items[1..], numberText))
  }

  /** The label shown for a TARGET value, compared with `===` against the numbers 0 and 1. */
  function RiskLabel(target: Option<Json>, numberText: real -> string): (shown: string)
    ensures target == Some(JNum(0.0)) ==> shown == "Low Risk"
    ensures target == Some(JNum(1.0)) ==> shown == "High Risk"
    ensures target != Some(JNum(0.0)) && target != Some(JNum(1.0)) ==>
      shown == "Unknown Risk Level (TARGET=" + JsText(target, numberText) + ")"
  {
    if target == Some(JNum(0.0)) then "Low Risk"
    else if target == Some(JNum(1.0)) then "High Risk"
    else "Unknown Risk Level (TARGET=" + JsText(target, numberText) + ")"
  }

  /** Only the numbers 0 and 1 get a risk level: the text "0" and a missing TARGET do not. */
  lemma OnlyNumbersAreRated(numberText: real -> string)
    ensures RiskLabel(Some(JStr("0")), numberText) == "Unknown Risk Level (TARGET=0)"
    ensures RiskLabel(None, numberText) == "Unknown Risk Level (TARGET=undefined)"
    ensures RiskLabel(Some(JNum(2.0)), numberText) == "Unknown Risk Level (TARGET=2)"
  {
    assert IntToString(2) == "2";
  }

  /** Each risk level is shown for exactly one TARGET value. */
  lemma RiskLabelIff(target: Option<Json>, numberText: real -> string)
    ensures RiskLabel(target, numberText) == "Low Risk" <==> target == Some(JNum(0.0))
    ensures RiskLabel(target, numberText) == "High Risk" <==> target == Some(JNum(1.0))
  {
    var shown := RiskLabel(target, numberText);
    if target != Some(JNum(0.0)) && target != Some(JNum(1.0)) {
      assert shown[0] == 'U';
    }
  }

  class LoanApprover {
    var userId: string
    var prediction: string
    var error: string

    constructor()
      ensures userId == "" && prediction == "" && error == ""
    {
      userId := "";
      prediction := "";
      error := "";
    }

    /** The field's `onChange`. */
    method SetUserId(text: string)
      modifies this
      ensures userId == text && prediction == old(prediction) && error == old(error)
    {
      userId := text;
    }

    /**
     * `handleSubmit` before the request: both messages are cleared, and the
     * URL the request goes to is returned: the field's text, as typed, after
     * `/target/` on the back end.
     */
    method BeginSubmit() returns (url: string)
      modifies this
      ensures prediction == "" && error == "" && userId == old(userId)
      ensures url == TargetUrlPrefix + old(userId)
      ensures url[..|TargetUrlPrefix|] == TargetUrlPrefix && url[|TargetUrlPrefix|..] == userId
    {
      prediction := "";
      error := "";
      url := TargetUrlPrefix + userId;
    }

    /**
     * `handleSubmit` after the request: a label on success, the error
     * message on failure; the other message is left as it was, so after a
     * begin half exactly one of the two is on screen.
     */
    method CompleteSubmit(body: Option<Json>, numberText: real -> string)
      modifies this
      ensures body.Some? ==> prediction == RiskLabel(TargetOf(body.value), numberText) && error == old(error)
      ensures body.None? ==> error == RequestFailed && prediction == old(prediction)
      ensures old(prediction) == "" && old(error) == "" ==> (prediction == "") != (error == "")
      ensures userId == old(userId)
    {
      if body.None? {
        error := RequestFailed;
        return;
      }
      var target := TargetOf(body.value);
      if target == Some(JNum(0.0)) {
        prediction := "Low Risk";
      } else if target == Some(JNum(1.0)) {
        prediction := "High Risk";
      } else {
        prediction := "Unknown Risk Level (TARGET=" + JsText(target, numberText) + ")";
      }
    }
  }
}
