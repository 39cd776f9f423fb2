/**
 * The tower-location service: the graph of consecutive towers each device
 * visited (built once at start-up), the account-to-device lookup, and the
 * two prediction endpoints. `/predict/lstm` feeds the last five encoded
 * towers of the account's device, zero-filled on the left, to a sequence
 * model; `/predict/gnn` reads the graph network's output row for the
 * device's latest tower. The trained networks and label encoders are
 * opaque: the LSTM is a function from the window to class scores, the
 * graph network's forward pass is its output matrix, and an encoder is its
 * `classes_` list.
 */
module TowerService {
  import opened Wrappers
  import opened Texts
  import LabelCodec

  /** One row of the tower log table. */
  datatype TowerLog = TowerLog(deviceId: int, towerId: string, timestamp: string)

  /** One row of the account/device mapping table. */
  datatype AccountLink = AccountLink(accountId: int, deviceId: int)

  // ---------------------------------------------------------------------
  // Selecting and ordering a device's logs
  // ---------------------------------------------------------------------

  /** `tower_logs[tower_logs['device_id'] == d]`: that device's rows, in table order. */
  function DeviceLogs(logs: seq<TowerLog>, d: int): (r: seq<TowerLog>)
    ensures |r| <= |logs|
    ensures forall x :: x in r <==> x in logs && x.deviceId == d
  {
    if logs == [] then []
    else
      var last := logs[|logs| - 1];
      DeviceLogs(logs[..|logs| - 1], d) + (if last.deviceId == d then [last] else [])
  }

  /** No log comes after a later-listed one in timestamp order. */
  predicate SortedByTime(s: seq<TowerLog>) {
    forall i, j :: 0 <= i < j < |s| ==> !Before(s[j].timestamp, s[i].timestamp)
  }

  /** Places `x` after every entry whose timestamp is not later than its own. */
  function Insert(x: TowerLog, s: seq<TowerLog>): (r: seq<TowerLog>)
    ensures |r| == |s| + 1
    ensures forall y :: y in r <==> y == x || y in s
    ensures multiset(r) == multiset(s) + multiset{x}
  {
    if s == [] then [x]
    else if Before(x.timestamp, s[0].timestamp) then [x] + s
    else
      assert s == [s[0]] + s[1..];
      [s[0]] + Insert(x, s[1..])
  }

  /** `sort_values('timestamp')`: the same logs, ordered by timestamp. */
  function SortByTime(s: seq<TowerLog>): (r: seq<TowerLog>)
    ensures |r| == |s|
    ensures forall x :: x in r <==> x in s
    ensures multiset(r) == multiset(s)
  {
    if s == [] then []
    else
      assert s == s[..|s| - 1] + [s[|s| - 1]];
      Insert(s[|s| - 1], SortByTime(s[..|s| - 1]))
  }

  /** A log not later than any of a sorted sequence may go in front of it. */
  lemma SortedCons(y: TowerLog, s: seq<TowerLog>)
    requires SortedByTime(s)
    requires forall z :: z in s ==> !Before(z.timestamp, y.timestamp)
    ensures SortedByTime([y] + s)
  {
    var r := [y] + s;
    forall i, j | 0 <= i < j < |r|
      ensures !Before(r[j].timestamp, r[i].timestamp)
    {
      assert r[j] == s[j - 1];
      if i > 0 {
        assert r[i] == s[i - 1];
      }
    }
  }

  lemma {:induction false} InsertSorted(x: TowerLog, s: seq<TowerLog>)
    requires SortedByTime(s)
    ensures SortedByTime(Insert(x, s))
  {
    if s == [] {
    } else if Before(x.timestamp, s[0].timestamp) {
      forall z | z in s
        ensures !Before(z.timestamp, x.timestamp)
      {
        var j :| 0 <= j < |s| && s[j] == z;
        if Before(z.timestamp, x.timestamp) {
          BeforeTransitive(z.timestamp, x.timestamp, s[0].timestamp);
          if j == 0 {
            BeforeIrreflexive(z.timestamp);
          }
        }
      }
      SortedCons(x, s);
    } else {
      InsertSorted(x, s[1..]);
      forall z | z in Insert(x, s[1..])
        ensures !Before(z.timestamp, s[0].timestamp)
      {
        if z != x {
          var j :| 0 <= j < |s[1..]| && s[1..][j] == z;
          assert s[j + 1] == z;
        }
      }
      SortedCons(s[0], Insert(x, s[1..]));
    }
  }

  /** Sorting orders the logs by timestamp. */
  lemma {:induction false} SortByTimeSorted(s: seq<TowerLog>)
    ensures SortedByTime(SortByTime(s))
  {
    if s != [] {
      SortByTimeSorted(s[..|s| - 1]);
      InsertSorted(s[|s| - 1], SortByTime(s[..|s| - 1]));
    }
  }

  /** The last entry of a sorted sequence is not earlier than any entry. */
  lemma LastIsLatest(h: seq<TowerLog>)
    requires SortedByTime(h) && h != []
    ensures forall x :: x in h ==> !Before(h[|h| - 1].timestamp, x.timestamp)
  {
    forall x | x in h
      ensures !Before(h[|h| - 1].timestamp, x.timestamp)
    {
      var k :| 0 <= k < |h| && h[k] == x;
      if k == |h| - 1 {
        BeforeIrreflexive(x.timestamp);
      }
    }
  }

  /** A device's timestamp-ordered logs: exactly its rows, the latest one last. */
  lemma DeviceHistory(logs: seq<TowerLog>, d: int)
    ensures var h := SortByTime(DeviceLogs(logs, d));
      && (forall x :: x in h <==> x in logs && x.deviceId == d)
      && SortedByTime(h)
      && (h != [] ==> forall x :: x in logs && x.deviceId == d ==> !Before(h[|h| - 1].timestamp, x.timestamp))
  {
    var h := SortByTime(DeviceLogs(logs, d));
    SortByTimeSorted(DeviceLogs(logs, d));
    if h != [] {
      LastIsLatest(h);
    }
  }

  // ---------------------------------------------------------------------
  // The device graph
  // ---------------------------------------------------------------------

  /** Strictly increasing: the order `groupby` visits its keys in. */
  predicate Ascending(ids: seq<int>) {
    forall i, j :: 0 <= i < j < |ids| ==> ids[i] < ids[j]
  }

  function InsertId(e: int, ids: seq<int>): (out: seq<int>) {
    if ids == [] then [e]
    else if e == ids[0] then ids
    else if e < ids[0] then [e] + ids
    else [ids[0]] + InsertId(e, ids[1..])
  }

  lemma {:induction false} InsertIdMembers(e: int, ids: seq<int>)
    ensures forall d :: d in InsertId(e, ids) <==> d == e || d in ids
  {
    if ids != [] && e > ids[0] {
      InsertIdMembers(e, ids[1..]);
      assert ids == [ids[0]] + ids[1..];
    }
  }

  lemma AscendingCons(e: int, ids: seq<int>)
    requires Ascending(ids)
    requires forall d :: d in ids ==> e < d
    ensures Ascending([e] + ids)
  {
    var r := [e] + ids;
    forall i, j | 0 <= i < j < |r|
      ensures r[i] < r[j]
    {
      assert r[j] == ids[j - 1] && ids[j - 1] in ids;
      if i > 0 {
        assert r[i] == ids[i - 1];
      }
    }
  }

  lemma {:induction false} InsertIdMeaning(e: int, ids: seq<int>)
    requires Ascending(ids)
    ensures Ascending(InsertId(e, ids))
    ensures forall d :: d in InsertId(e, ids) <==> d == e || d in ids
    ensures e in ids ==> InsertId(e, ids) == ids
  {
    InsertIdMembers(e, ids);
    InsertIdAscending(e, ids);
    InsertIdPresent(e, ids);
  }

  lemma {:induction false} InsertIdAscending(e: int, ids: seq<int>)
    requires Ascending(ids)
    ensures Ascending(InsertId(e, ids))
  {
    if ids == [] {
    } else if e < ids[0] {
      BelowHead(e, ids);
      AscendingCons(e, ids);
    } else if e > ids[0] {
      InsertIdAscending(e, ids[1..]);
      InsertIdMembers(e, ids[1..]);
      forall d | d in InsertId(e, ids[1..])
        ensures ids[0] < d
      {
        if d != e {
          var k :| 0 <= k < |ids[1..]| && ids[1..][k] == d;
          assert ids[k + 1] == d;
        }
      }
      AscendingCons(ids[0], InsertId(e, ids[1..]));
    }
  }

  /** Everything in an ascending sequence is above a value below its head. */
  lemma BelowHead(e: int, ids: seq<int>)
    requires Ascending(ids) && ids != [] && e < ids[0]
    ensures forall d :: d in ids ==> e < d
  {
    forall d | d in ids
      ensures e < d
    {
      var k :| 0 <= k < |ids| && ids[k] == d;
      assert k == 0 || ids[0] < ids[k];
    }
  }

  lemma {:induction false} InsertIdPresent(e: int, ids: seq<int>)
    requires Ascending(ids)
    ensures e in ids ==> InsertId(e, ids) == ids
  {
    if ids != [] && e in ids {
      if e < ids[0] {
        BelowHead(e, ids);
      } else if e > ids[0] {
        assert e in ids[1..] by {
          assert ids == [ids[0]] + ids[1..];
        }
        InsertIdPresent(e, ids[1..]);
        assert ids == [ids[0]] + ids[1..];
      }
    }
  }

  /** The keys of `tower_logs.groupby('device_id')`: each device once, ascending. */
  function DeviceIds(logs: seq<TowerLog>): (ids: seq<int>) {
    if logs == [] then []
    else InsertId(logs[|logs| - 1].deviceId, DeviceIds(logs[..|logs| - 1]))
  }

  lemma {:induction false} DeviceIdsMeaning(logs: seq<TowerLog>)
    ensures Ascending(DeviceIds(logs))
    ensures forall d :: d in DeviceIds(logs) <==> exists x :: x in logs && x.deviceId == d
  {
    if logs != [] {
      var init := logs[..|logs| - 1];
      var last := logs[|logs| - 1];
      DeviceIdsMeaning(init);
      InsertIdMeaning(last.deviceId, DeviceIds(init));
      assert logs == init + [last];
      forall d | d in DeviceIds(logs)
        ensures exists x :: x in logs && x.deviceId == d
      {
        if d != last.deviceId {
          var x :| x in init && x.deviceId == d;
          assert x in logs;
        }
      }
    }
  }

  /** The towers a sequence of logs passes through, as encoder codes. */
  function Codes(classes: seq<string>, s: seq<TowerLog>): (r: seq<nat>)
    requires forall x :: x in s ==> x.towerId in classes
    ensures |r| == |s|
    ensures forall i :: 0 <= i < |s| ==> r[i] < |classes| && classes[r[i]] == s[i].towerId
  {
    seq(|s|, i requires 0 <= i < |s| => LabelCodec.IndexOf(classes, s[i].towerId))
  }

  /** The edges between consecutive entries of a tower sequence. */
  function Chain(towers: seq<nat>): (r: seq<(nat, nat)>)
    ensures |r| == if towers == [] then 0 else |towers| - 1
    ensures forall i :: 0 <= i < |r| ==> r[i] == (towers[i], towers[i + 1])
  {
    if towers == [] then []
    else seq(|towers| - 1, i requires 0 <= i < |towers| - 1 => (towers[i], towers[i + 1]))
  }

  predicate Known(classes: seq<string>, logs: seq<TowerLog>) {
    forall x :: x in logs ==> x.towerId in classes
  }

  /** One device's edges: the chain through its towers in timestamp order. */
  function DeviceChain(classes: seq<string>, logs: seq<TowerLog>, d: int): (chain: seq<(nat, nat)>)
    requires Known(classes, logs)
  {
    DeviceHistory(logs, d);
    Chain(Codes(classes, SortByTime(DeviceLogs(logs, d))))
  }

  /** The edges contributed by the devices `ds`, device after device. */
  function GraphEdges(classes: seq<string>, logs: seq<TowerLog>, ds: seq<int>): (edges: seq<(nat, nat)>)
    requires Known(classes, logs)
  {
    if ds == [] then []
    else GraphEdges(classes, logs, ds[..|ds| - 1]) + DeviceChain(classes, logs, ds[|ds| - 1])
  }

  /**
   * The start-up edge list: fails if some logged tower is unknown to the
   * graph encoder, else every device's chain in device order.
   */
  function Edges(classes: seq<string>, logs: seq<TowerLog>): (r: Result<seq<(nat, nat)>, string>) {
    if Known(classes, logs) then Ok(GraphEdges(classes, logs, DeviceIds(logs)))
    else Err(LabelCodec.UnseenLabels)
  }

  function TowerIds(s: seq<TowerLog>): (r: seq<string>)
    ensures |r| == |s| && forall i :: 0 <= i < |s| ==> r[i] == s[i].towerId
  {
    seq(|s|, i requires 0 <= i < |s| => s[i].towerId)
  }

  /** Encoding every log's tower succeeds exactly when every logged tower is known. */
  lemma KnownIffEncodes(classes: seq<string>, logs: seq<TowerLog>)
    ensures LabelCodec.Transform(classes, TowerIds(logs)).Ok? <==> Known(classes, logs)
    ensures LabelCodec.Transform(classes, TowerIds(logs)).Err? ==>
      LabelCodec.Transform(classes, TowerIds(logs)).error == LabelCodec.UnseenLabels
  {
    if LabelCodec.Transform(classes, TowerIds(logs)).Err? {
      var i :| 0 <= i < |logs| && TowerIds(logs)[i] !in classes;
      assert logs[i] in logs;
    } else {
      forall x | x in logs
        ensures x.towerId in classes
      {
        var i :| 0 <= i < |logs| && logs[i] == x;
        assert TowerIds(logs)[i] == x.towerId;
      }
    }
  }

  /** The start-up loop: encode every log's tower, then extend the edge list group by group. */
  method BuildEdges(classes: seq<string>, logs: seq<TowerLog>) returns (r: Result<seq<(nat, nat)>, string>)
    ensures r == Edges(classes, logs)
  {
    var towerNums := LabelCodec.Transform(classes, TowerIds(logs));
    KnownIffEncodes(classes, logs);
    if towerNums.Err? {
      return Err(towerNums.error);
    }
    var devices := DeviceIds(logs);
    var edges: seq<(nat, nat)> := [];
    for k := 0 to |devices|
      invariant edges == GraphEdges(classes, logs, devices[..k])
    {
      assert devices[..k + 1][..k] == devices[..k];
      var group := SortByTime(DeviceLogs(logs, devices[k]));
      DeviceHistory(logs, devices[k]);
      var towerSeq := Codes(classes, group);
      edges := edges + Chain(towerSeq);
    }
    assert devices[..|devices|] == devices;
    r := Ok(edges);
  }

  // The edge count: one fewer edge than logs for every device.

  function LogCount(logs: seq<TowerLog>, d: int): (n: nat) {
    |DeviceLogs(logs, d)|
  }

  /** The number of logs of the devices `ds`. */
  function LogTotal(logs: seq<TowerLog>, ds: seq<int>): (n: nat) {
    if ds == [] then 0 else LogCount(logs, ds[0]) + LogTotal(logs, ds[1..])
  }

  lemma {:induction false} LogTotalSnoc(logs: seq<TowerLog>, ds: seq<int>)
    requires ds != []
    ensures LogTotal(logs, ds) == LogTotal(logs, ds[..|ds| - 1]) + LogCount(logs, ds[|ds| - 1])
  {
    if |ds| > 1 {
      LogTotalSnoc(logs, ds[1..]);
      assert ds[1..][..|ds| - 2] == ds[..|ds| - 1][1..];
    }
  }

  /** Appending a log adds one to the total of any device list holding its device once. */
  lemma {:induction false} LogTotalStep(logs: seq<TowerLog>, ds: seq<int>)
    requires logs != [] && Ascending(ds)
    ensures LogTotal(logs, ds) == LogTotal(logs[..|logs| - 1], ds) + (if logs[|logs| - 1].deviceId in ds then 1 else 0)
  {
    if ds != [] {
      LogTotalStep(logs, ds[1..]);
      var e := logs[|logs| - 1].deviceId;
      if e == ds[0] {
        assert e !in ds[1..];
      }
      assert e in ds <==> e == ds[0] || e in ds[1..];
    }
  }

  lemma {:induction false} LogTotalInsert(logs: seq<TowerLog>, e: int, ds: seq<int>)
    requires Ascending(ds) && e !in ds
    ensures LogTotal(logs, InsertId(e, ds)) == LogCount(logs, e) + LogTotal(logs, ds)
  {
    if ds != [] && e > ds[0] {
      LogTotalInsert(logs, e, ds[1..]);
      assert InsertId(e, ds)[1..] == InsertId(e, ds[1..]);
    } else if ds != [] {
      assert InsertId(e, ds)[1..] == ds;
    }
  }

  /** Every log belongs to exactly one group. */
  lemma {:induction false} LogTotalOfDeviceIds(logs: seq<TowerLog>)
    ensures LogTotal(logs, DeviceIds(logs)) == |logs|
  {
    if logs != [] {
      var init := logs[..|logs| - 1];
      var e := logs[|logs| - 1].deviceId;
      var ids := DeviceIds(init);
      LogTotalOfDeviceIds(init);
      DeviceIdsMeaning(init);
      InsertIdMeaning(e, ids);
      if e in ids {
        LogTotalStep(logs, ids);
      } else {
        LogTotalInsert(logs, e, ids);
        LogTotalStep(logs, ids);
        if DeviceLogs(init, e) != [] {
          assert DeviceLogs(init, e)[0] in DeviceLogs(init, e);
        }
      }
    }
  }

  lemma {:induction false} GraphEdgeCount(classes: seq<string>, logs: seq<TowerLog>, ds: seq<int>)
    requires Known(classes, logs)
    requires forall d :: d in ds ==> LogCount(logs, d) > 0
    ensures |GraphEdges(classes, logs, ds)| == LogTotal(logs, ds) - |ds|
  {
    if ds != [] {
      GraphEdgeCount(classes, logs, ds[..|ds| - 1]);
      LogTotalSnoc(logs, ds);
      assert ds[|ds| - 1] in ds;
    }
  }

  /**
   * The start-up edge list exists iff every logged tower is known to the
   * encoder, and then holds one edge fewer than there are logs for every
   * device: `|logs| - |devices|` in all.
   */
  lemma EdgesMeaning(classes: seq<string>, logs: seq<TowerLog>)
    ensures Edges(classes, logs).Ok? <==> forall i :: 0 <= i < |logs| ==> logs[i].towerId in classes
    ensures Edges(classes, logs).Ok? ==> |Edges(classes, logs).value| == |logs| - |DeviceIds(logs)|
  {
    if Known(classes, logs) {
      DeviceIdsMeaning(logs);
      forall d | d in DeviceIds(logs)
        ensures LogCount(logs, d) > 0
      {
        var x :| x in logs && x.deviceId == d;
        assert x in DeviceLogs(logs, d);
      }
      GraphEdgeCount(classes, logs, DeviceIds(logs));
      LogTotalOfDeviceIds(logs);
    } else {
      var x :| x in logs && x.towerId !in classes;
      var i :| 0 <= i < |logs| && logs[i] == x;
    }
  }

  /** A device with `n` logs contributes `n - 1` edges, linking its towers in timestamp order. */
  lemma DeviceChainMeaning(classes: seq<string>, logs: seq<TowerLog>, d: int)
    requires Known(classes, logs) && LogCount(logs, d) > 0
    ensures var h := SortByTime(DeviceLogs(logs, d));
      var c := DeviceChain(classes, logs, d);
      && |c| == LogCount(logs, d) - 1
      && forall i :: 0 <= i < |c| ==>
           classes[c[i].0] == h[i].towerId && classes[c[i].1] == h[i + 1].towerId
  {
  }

  // ---------------------------------------------------------------------
  // The prediction endpoints
  // ---------------------------------------------------------------------

  const WindowSize := 5
  const NoLogs := "No tower logs found for this account"
  const EmptyArgmax := "attempt to get argmax of an empty sequence"
  /**
   * Indexing the GNN output past its rows. The text is a tag for torch's
   * index error, not torch's own message.
   */
  const RowOutOfRange := "index is out of bounds for the network's output"

  /** What an endpoint answers: the predicted tower, or a status code and detail. */
  datatype Reply = Predicted(towerId: string) | Failed(status: nat, detail: string)

  /** The loaded tables and models both endpoints read. */
  datatype Service = Service(
    accounts: seq<AccountLink>,
    logs: seq<TowerLog>,
    lstmClasses: seq<string>,
    lstm: seq<nat> -> seq<real>,
    gnnClasses: seq<string>,
    gnnOut: seq<seq<real>>)

  function NotFound(accountId: int): (msg: string) {
    "Account ID " + IntToString(accountId) + " not found"
  }

  /** `account_map[account_map['account_id'] == id]['device_id'].values`. */
  function DevicesOf(accounts: seq<AccountLink>, id: int): (devices: seq<int>) {
    if accounts == [] then []
    else (if accounts[0].accountId == id then [accounts[0].deviceId] else []) + DevicesOf(accounts[1..], id)
  }

  /** The device used is the one of the first mapping row for the account, if any. */
  lemma {:induction false} DevicesOfMeaning(accounts: seq<AccountLink>, id: int)
    ensures DevicesOf(accounts, id) == [] <==> forall i :: 0 <= i < |accounts| ==> accounts[i].accountId != id
    ensures DevicesOf(accounts, id) != [] ==> exists i :: (0 <= i < |accounts|
      && accounts[i] == AccountLink(id, DevicesOf(accounts, id)[0])
      && forall j :: 0 <= j < i ==> accounts[j].accountId != id)
  {
    if accounts != [] {
      DevicesOfMeaning(accounts[1..], id);
      if accounts[0].accountId != id && DevicesOf(accounts[1..], id) != [] {
        var i :| (0 <= i < |accounts[1..]|
          && accounts[1..][i] == AccountLink(id, DevicesOf(accounts[1..], id)[0])
          && forall j :: 0 <= j < i ==> accounts[1..][j].accountId != id);
        assert accounts[i + 1] == accounts[1..][i];
        assert forall j :: 1 <= j < i + 1 ==> accounts[j] == accounts[1..][j - 1];
      }
      if accounts[0].accountId != id && DevicesOf(accounts[1..], id) == [] {
        assert forall i :: 1 <= i < |accounts| ==> accounts[i] == accounts[1..][i - 1];
      }
    }
  }

  /** `np.argmax`: the first index holding the largest score. */
  function ArgMax(v: seq<real>): (k: nat)
    requires v != []
    ensures k < |v|
    ensures forall j :: 0 <= j < |v| ==> v[j] <= v[k]
    ensures forall j :: 0 <= j < k ==> v[j] < v[k]
  {
    if |v| == 1 then 0
    else
      var k := ArgMax(v[..|v| - 1]);
      if v[|v| - 1] > v[k] then |v| - 1 else k
  }

  /**
   * The class a score vector picks: the encoder's class at the arg-max; an
   * empty vector, or an arg-max past the classes, is a 500.
   */
  function Decode(classes: seq<string>, scores: seq<real>): (r: Reply)
    ensures r.Predicted? <==> scores != [] && ArgMax(scores) < |classes|
    ensures r.Predicted? ==> r.towerId == classes[ArgMax(scores)]
    ensures scores == [] ==> r == Failed(500, EmptyArgmax)
    ensures scores != [] && ArgMax(scores) >= |classes| ==> r == Failed(500, LabelCodec.IndexOutOfBounds)
  {
    if scores == [] then Failed(500, EmptyArgmax)
    else match LabelCodec.InverseTransform(classes, ArgMax(scores))
      case Err(e) => Failed(500, e)
      case Ok(t) => Predicted(t)
  }

  /**
   * A decoded tower is the class at the first position of a largest score:
   * every score is at most that one, and every earlier score is smaller.
   */
  lemma DecodeMeaning(classes: seq<string>, scores: seq<real>)
    requires Decode(classes, scores).Predicted?
    ensures exists k ::
      && 0 <= k < |scores| && k < |classes| && classes[k] == Decode(classes, scores).towerId
      && (forall j :: 0 <= j < |scores| ==> scores[j] <= scores[k])
      && (forall j :: 0 <= j < k ==> scores[j] < scores[k])
  {
    var k := ArgMax(scores);
    assert classes[k] == Decode(classes, scores).towerId;
  }

  /** `encoder.transform(towers)` when every tower is a class: each tower's first position. */
  function Encode(classes: seq<string>, towers: seq<string>): (codes: seq<nat>)
    requires forall i :: 0 <= i < |towers| ==> towers[i] in classes
    ensures |codes| == |towers|
    ensures forall i :: 0 <= i < |towers| ==>
      codes[i] < |classes| && classes[codes[i]] == towers[i] && towers[i] !in classes[..codes[i]]
  {
    seq(|towers|, i requires 0 <= i < |towers| => LabelCodec.IndexOf(classes, towers[i]))
  }

  /**
   * The LSTM input: slot `k` of the five holds the code that many places
   * from the end of the sequence, and 0 where the sequence is too short.
   */
  function Window(codes: seq<nat>): (w: seq<nat>)
    ensures |w| == WindowSize
  {
    seq(WindowSize, k requires 0 <= k < WindowSize =>
      if k + |codes| >= WindowSize then codes[k + |codes| - WindowSize] else 0)
  }

  /** Five or more codes: the window is the last five, in order. */
  lemma WindowOfLong(codes: seq<nat>)
    requires |codes| >= WindowSize
    ensures Window(codes) == codes[|codes| - WindowSize..]
  {
  }

  /** Fewer than five codes: zeros on the left, then the whole sequence. */
  lemma WindowOfShort(codes: seq<nat>)
    requires |codes| < WindowSize
    ensures Window(codes) == seq(WindowSize - |codes|, _ => 0) + codes
  {
  }

  /**
   * `padded = np.zeros((1, 5)); padded[0, -len(encoded):] = encoded[-5:]`.
   * The handler only pads a non-empty sequence.
   */
  method PadWindow(encoded: seq<nat>) returns (padded: array<nat>)
    requires |encoded| > 0
    ensures fresh(padded)
    ensures padded[..] == Window(encoded)
  {
    padded := new nat[WindowSize](_ => 0);
    var n := |encoded|;
    // a slice start of -n lies before the row's start once n exceeds five
    var start := if n >= WindowSize then 0 else WindowSize - n;
    var tail := if n >= WindowSize then encoded[n - WindowSize..] else encoded;
    for j := start to WindowSize
      invariant forall k :: 0 <= k < start ==> padded[k] == 0
      invariant forall k :: start <= k < j ==> padded[k] == tail[k - start]
    {
      padded[j] := tail[j - start];
    }
  }

  /** The tower of a device's latest log, if it has any. */
  function LatestTower(logs: seq<TowerLog>, d: int): (r: Option<string>)
    ensures r.None? <==> forall x :: x in logs ==> x.deviceId != d
    ensures r.Some? ==> exists x :: (x in logs && x.deviceId == d && x.towerId == r.value
      && forall y :: y in logs && y.deviceId == d ==> !Before(x.timestamp, y.timestamp))
  {
    var h := SortByTime(DeviceLogs(logs, d));
    DeviceHistory(logs, d);
    if h == [] then None
    else
      assert h[|h| - 1] in h;
      Some(h[|h| - 1].towerId)
  }

  /** What `/predict/lstm` answers once the account's device and its tower sequence are known. */
  function LstmVerdict(svc: Service, sequence: seq<string>): (r: Reply)
    ensures r.Predicted? ==> r.towerId in svc.lstmClasses
    ensures r.Failed? ==> r.status == 500
    ensures (exists i :: 0 <= i < |sequence| && sequence[i] !in svc.lstmClasses)
      <==> r == Failed(500, LabelCodec.UnseenLabels)
    ensures (forall i :: 0 <= i < |sequence| ==> sequence[i] in svc.lstmClasses) ==>
      r == Decode(svc.lstmClasses, svc.lstm(Window(Encode(svc.lstmClasses, sequence))))
  {
    match LabelCodec.Transform(svc.lstmClasses, sequence)
    case Err(e) => Failed(500, e)
    case Ok(encoded) => Decode(svc.lstmClasses, svc.lstm(Window(encoded)))
  }

  /** What `/predict/lstm` answers. */
  function LstmReply(svc: Service, accountId: int): (reply: Reply) {
    var devices := DevicesOf(svc.accounts, accountId);
    if devices == [] then Failed(404, NotFound(accountId))
    else
      var sequence := TowerIds(SortByTime(DeviceLogs(svc.logs, devices[0])));
      if sequence == [] then Failed(400, NoLogs)
      else LstmVerdict(svc, sequence)
  }

  /** What `/predict/gnn` answers. */
  function GnnReply(svc: Service, accountId: int): (reply: Reply) {
    var devices := DevicesOf(svc.accounts, accountId);
    if devices == [] then Failed(404, NotFound(accountId))
    else
      match LatestTower(svc.logs, devices[0])
      case None => Failed(400, NoLogs)
      case Some(t) => GnnVerdict(svc, t)
  }

  /** What `/predict/gnn` answers once the device's latest tower is known. */
  function GnnVerdict(svc: Service, t: string): (r: Reply)
    ensures r.Predicted? ==> r.towerId in svc.gnnClasses
    ensures r.Failed? ==> r.status == 500
    ensures t !in svc.gnnClasses <==> r == Failed(500, LabelCodec.UnseenLabels)
    ensures t in svc.gnnClasses ==>
      var k := LabelCodec.IndexOf(svc.gnnClasses, t);
      r == if k < |svc.gnnOut| then Decode(svc.gnnClasses, svc.gnnOut[k]) else Failed(500, RowOutOfRange)
  {
    match LabelCodec.Transform(svc.gnnClasses, [t])
    case Err(e) => Failed(500, e)
    case Ok(nums) =>
      if nums[0] < |svc.gnnOut| then Decode(svc.gnnClasses, svc.gnnOut[nums[0]])
      else Failed(500, RowOutOfRange)
  }

  /** The latest tower is the last entry of the device's sorted history. */
  lemma LatestIsLast(logs: seq<TowerLog>, d: int)
    ensures var h := SortByTime(DeviceLogs(logs, d));
      LatestTower(logs, d) == if h == [] then None else Some(h[|h| - 1].towerId)
  {
  }

  /** The `/predict/lstm` handler. */
  method PredictLstm(svc: Service, accountId: int) returns (r: Reply)
    ensures r == LstmReply(svc, accountId)
  {
    var deviceIds := DevicesOf(svc.accounts, accountId);
    if |deviceIds| == 0 {
      return Failed(404, NotFound(accountId));
    }
    var deviceId := deviceIds[0];
    var userLogs := SortByTime(DeviceLogs(svc.logs, deviceId));
    var sequence := TowerIds(userLogs);
    if sequence == [] {
      return Failed(400, NoLogs);
    }
    var encoded := LabelCodec.Transform(svc.lstmClasses, sequence);
    if encoded.Err? {
      return Failed(500, encoded.error);
    }
    var padded := PadWindow(encoded.value);
    var scores := svc.lstm(padded[..]);
    if scores == [] {
      return Failed(500, EmptyArgmax);
    }
    var towerId := LabelCodec.InverseTransform(svc.lstmClasses, ArgMax(scores));
    if towerId.Err? {
      return Failed(500, towerId.error);
    }
    r := Predicted(towerId.value);
  }

  /** The `/predict/gnn` handler. */
  method PredictGnn(svc: Service, accountId: int) returns (r: Reply)
    ensures r == GnnReply(svc, accountId)
  {
    var deviceIds := DevicesOf(svc.accounts, accountId);
    if |deviceIds| == 0 {
      return Failed(404, NotFound(accountId));
    }
    var deviceId := deviceIds[0];
    var userLogs := SortByTime(DeviceLogs(svc.logs, deviceId));
    if userLogs == [] {
      return Failed(400, NoLogs);
    }
    var lastTowerId := userLogs[|userLogs| - 1].towerId;
    LatestIsLast(svc.logs, deviceId);
    assert GnnReply(svc, accountId) == GnnVerdict(svc, lastTowerId);
    var lastTowerNum := LabelCodec.Transform(svc.gnnClasses, [lastTowerId]);
    if lastTowerNum.Err? {
      return Failed(500, lastTowerNum.error);
    }
    var k := lastTowerNum.value[0];
    if k >= |svc.gnnOut| {
      return Failed(500, RowOutOfRange);
    }
    var scores := svc.gnnOut[k];
    if scores == [] {
      return Failed(500, EmptyArgmax);
    }
    var towerId := LabelCodec.InverseTransform(svc.gnnClasses, ArgMax(scores));
    if towerId.Err? {
      return Failed(500, towerId.error);
    }
    r := Predicted(towerId.value);
  }

  /** The row a lookup of `accountId` settles on: the first mapping row for it. */
  predicate FirstRow(accounts: seq<AccountLink>, accountId: int, i: int) {
    && 0 <= i < |accounts| && accounts[i].accountId == accountId
    && forall j :: 0 <= j < i ==> accounts[j].accountId != accountId
  }

  lemma FirstRowUnique(accounts: seq<AccountLink>, accountId: int, i: int, k: int)
    requires FirstRow(accounts, accountId, i) && FirstRow(accounts, accountId, k)
    ensures i == k
  {
  }

  /** The first mapping row of a mapped account names the device both endpoints use. */
  lemma FirstDevice(accounts: seq<AccountLink>, accountId: int, i: int)
    requires FirstRow(accounts, accountId, i)
    ensures DevicesOf(accounts, accountId) != [] && DevicesOf(accounts, accountId)[0] == accounts[i].deviceId
  {
    DevicesOfMeaning(accounts, accountId);
    assert accounts[i].accountId == accountId;
    var k :| (0 <= k < |accounts|
      && accounts[k] == AccountLink(accountId, DevicesOf(accounts, accountId)[0])
      && forall j :: 0 <= j < k ==> accounts[j].accountId != accountId);
    FirstRowUnique(accounts, accountId, i, k);
  }

  predicate Unmapped(accounts: seq<AccountLink>, accountId: int) {
    forall i :: 0 <= i < |accounts| ==> accounts[i].accountId != accountId
  }

  /** Both endpoints answer 404 exactly for an account without a mapping row. */
  lemma NotFoundIffUnmapped(svc: Service, accountId: int)
    ensures LstmReply(svc, accountId).Failed? && LstmReply(svc, accountId).status == 404
      <==> Unmapped(svc.accounts, accountId)
    ensures GnnReply(svc, accountId).Failed? && GnnReply(svc, accountId).status == 404
      <==> Unmapped(svc.accounts, accountId)
    ensures Unmapped(svc.accounts, accountId) ==>
      LstmReply(svc, accountId) == GnnReply(svc, accountId) == Failed(404, NotFound(accountId))
  {
    DevicesOfMeaning(svc.accounts, accountId);
    var devices := DevicesOf(svc.accounts, accountId);
    if devices != [] {
      match LatestTower(svc.logs, devices[0])
      case None =>
      case Some(t) =>
    }
  }

  /**
   * For a mapped account, both endpoints answer 400 exactly when the device
   * of its first mapping row has no logs: the check comes before any
   * encoding or padding.
   */
  lemma NoLogsIffSilentDevice(svc: Service, accountId: int, i: int)
    requires FirstRow(svc.accounts, accountId, i)
    ensures var silent := forall x :: x in svc.logs ==> x.deviceId != svc.accounts[i].deviceId;
      && (LstmReply(svc, accountId).Failed? && LstmReply(svc, accountId).status == 400 <==> silent)
      && (GnnReply(svc, accountId).Failed? && GnnReply(svc, accountId).status == 400 <==> silent)
      && (silent ==> LstmReply(svc, accountId) == GnnReply(svc, accountId) == Failed(400, NoLogs))
  {
    FirstDevice(svc.accounts, accountId, i);
    var h := SortByTime(DeviceLogs(svc.logs, svc.accounts[i].deviceId));
    if h != [] {
      assert h[0] in h;
    }
  }

  /** With five or more towers, the LSTM sees only the last five. */
  lemma LstmUsesLastFive(svc: Service, a: seq<string>, b: seq<string>)
    requires |a| >= WindowSize && |b| >= WindowSize
    requires a[|a| - WindowSize..] == b[|b| - WindowSize..]
    requires forall i :: 0 <= i < |a| ==> a[i] in svc.lstmClasses
    requires forall i :: 0 <= i < |b| ==> b[i] in svc.lstmClasses
    ensures LstmVerdict(svc, a) == LstmVerdict(svc, b)
  {
    var ea := LabelCodec.Transform(svc.lstmClasses, a).value;
    var eb := LabelCodec.Transform(svc.lstmClasses, b).value;
    forall k | 0 <= k < WindowSize
      ensures Window(ea)[k] == Window(eb)[k]
    {
      assert a[|a| - WindowSize + k] == b[|b| - WindowSize + k] by {
        assert a[|a| - WindowSize..][k] == b[|b| - WindowSize..][k];
      }
    }
    assert Window(ea) == Window(eb);
  }
}
