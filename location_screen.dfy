/**
 * The last-known-location screen: an account id field (pre-filled from the
 * navigation that opened the screen), one submit per model, each with its
 * own loading flag and result card, and a comparison of the two predicted
 * towers once both are on screen. Each submit is split at its `await`: the
 * begin half runs before the request, the complete half receives how the
 * API call ended and the clock's text.
 */
module LocationScreen {
  import opened Wrappers
  import opened Texts
  import ApiClient

  /** The `accountId` a navigation may carry: CSV text, or a number. */
  datatype NavValue = NavText(text: string) | NavNumber(n: int)

  const DefaultAccountId := "20002"

  /** `state?.accountId?.toString() || '20002'`. */
  function InitialAccountId(nav: Option<NavValue>): (id: string)
    ensures id != ""
    ensures nav == None ==> id == DefaultAccountId
    ensures nav.Some? && nav.value.NavText? && nav.value.text != "" ==> id == nav.value.text
  {
    var s := match nav
      case None => ""
      case Some(NavText(t)) => t
      case Some(NavNumber(n)) => IntToString(n);
    if s == "" then DefaultAccountId else s
  }

  /** A numeric account id arrives as its decimal text, which reads back as the same number. */
  lemma NumericAccountIdRoundTrips(n: int)
    ensures ParseInt(InitialAccountId(Some(NavNumber(n)))) == Some(n)
  {
    ParseIntOfIntToString(n);
  }

  /** A result card: the location the API returned and when it arrived. */
  datatype ShownLocation = ShownLocation(location: ApiClient.LocationResult, timestamp: string)

  /** Whether the two cards agree on the tower; absent while either card is missing. */
  function Comparison(lstm: Option<ShownLocation>, gnn: Option<ShownLocation>): (r: Option<bool>)
    ensures r.Some? <==> lstm.Some? && gnn.Some?
    ensures r.Some? ==> (r.value <==> lstm.value.location.predictedTowerId == gnn.value.location.predictedTowerId)
  {
    if lstm.Some? && gnn.Some? then
      Some(lstm.value.location.predictedTowerId == gnn.value.location.predictedTowerId)
    else None
  }

  class LastKnownLocation {
    var accountId: string
    var loadingLstm: bool
    var loadingGnn: bool
    var lstmResult: Option<ShownLocation>
    var gnnResult: Option<ShownLocation>

    constructor(nav: Option<NavValue>)
      ensures accountId == InitialAccountId(nav)
      ensures !loadingLstm && !loadingGnn && lstmResult == None && gnnResult == None
    {
      accountId := InitialAccountId(nav);
      loadingLstm := false;
      loadingGnn := false;
      lstmResult := None;
      gnnResult := None;
    }

    /** The id field's `onChange`. */
    method SetAccountId(text: string)
      modifies this
      ensures accountId == text
      ensures loadingLstm == old(loadingLstm) && loadingGnn == old(loadingGnn)
      ensures lstmResult == old(lstmResult) && gnnResult == old(gnnResult)
    {
      accountId := text;
    }

    /**
     * `handleLSTMSubmit` before the request: a blank id changes nothing;
     * otherwise the LSTM card starts loading with its old result cleared,
     * and the request carries `parseInt` of the id. The GNN side is untouched.
     */
    method BeginLstm() returns (request: Option<Option<int>>)
      modifies this
      ensures request.None? <==> IsBlank(old(accountId))
      ensures request.Some? ==> request.value == ParseInt(accountId)
      ensures request.None? ==> loadingLstm == old(loadingLstm) && lstmResult == old(lstmResult)
      ensures request.Some? ==> loadingLstm && lstmResult == None
      ensures accountId == old(accountId) && loadingGnn == old(loadingGnn) && gnnResult == old(gnnResult)
    {
      if IsBlank(accountId) {
        return None;
      }
      loadingLstm := true;
      lstmResult := None;
      request := Some(ParseInt(accountId));
    }

    /** `handleLSTMSubmit` after the request: the card shows a success; loading ends either way. */
    method CompleteLstm(outcome: Result<ApiClient.LocationResult, string>, now: string)
      modifies this
      ensures !loadingLstm
      ensures outcome.Ok? ==> lstmResult == Some(ShownLocation(outcome.value, now))
      ensures outcome.Err? ==> lstmResult == old(lstmResult)
      ensures accountId == old(accountId) && loadingGnn == old(loadingGnn) && gnnResult == old(gnnResult)
    {
      if outcome.Ok? {
        lstmResult := Some(ShownLocation(outcome.value, now));
      }
      loadingLstm := false;
    }

    /** `handleGNNSubmit` before the request; the LSTM side is untouched. */
    method BeginGnn() returns (request: Option<Option<int>>)
      modifies this
      ensures request.None? <==> IsBlank(old(accountId))
      ensures request.Some? ==> request.value == ParseInt(accountId)
      ensures request.None? ==> loadingGnn == old(loadingGnn) && gnnResult == old(gnnResult)
      ensures request.Some? ==> loadingGnn && gnnResult == None
      ensures accountId == old(accountId) && loadingLstm == old(loadingLstm) && lstmResult == old(lstmResult)
    {
      if IsBlank(accountId) {
        return None;
      }
      loadingGnn := true;
      gnnResult := None;
      request := Some(ParseInt(accountId));
    }

    /** `handleGNNSubmit` after the request. */
    method CompleteGnn(outcome: Result<ApiClient.LocationResult, string>, now: string)
      modifies this
      ensures !loadingGnn
      ensures outcome.Ok? ==> gnnResult == Some(ShownLocation(outcome.value, now))
      ensures outcome.Err? ==> gnnResult == old(gnnResult)
      ensures accountId == old(accountId) && loadingLstm == old(loadingLstm) && lstmResult == old(lstmResult)
    {
      if outcome.Ok? {
        gnnResult := Some(ShownLocation(outcome.value, now));
      }
      loadingGnn := false;
    }
  }
}
