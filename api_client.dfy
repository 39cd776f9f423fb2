/**
 * The browser client's API layer: the tower directory loaded once from a
 * JSON file, the two location-prediction calls that join the service's
 * predicted tower id against that directory, and the mock defaulter score.
 * The network is outside the model (each call receives the HTTP answer it
 * got), and every `Math.random()` draw is a parameter in `[0, 1)`.
 */
module ApiClient {
  import opened Wrappers
  import opened Texts

  // ---------------------------------------------------------------------
  // The tower directory
  // ---------------------------------------------------------------------

  /** One entry of the tower JSON file. */
  datatype RawTower = RawTower(towerId: string, latitude: real, longitude: real, city: string)

  /** What the directory keeps for a tower; the city serves as address. */
  datatype TowerInfo = TowerInfo(latitude: real, longitude: real, address: string)

  function InfoOf(t: RawTower): (info: TowerInfo) {
    TowerInfo(t.latitude, t.longitude, t.city)
  }

  /** The `reduce` over the file's entries: each entry overwrites its id's slot. */
  function Directory(raw: seq<RawTower>): (dir: map<string, TowerInfo>) {
    if raw == [] then map[]
    else Directory(raw[..|raw| - 1])[raw[|raw| - 1].towerId := InfoOf(raw[|raw| - 1])]
  }

  /** The directory knows exactly the ids the file lists. */
  lemma {:induction false} DirectoryKeys(raw: seq<RawTower>)
    ensures forall id :: id in Directory(raw) <==> exists i :: 0 <= i < |raw| && raw[i].towerId == id
  {
    if raw != [] {
      var init := raw[..|raw| - 1];
      DirectoryKeys(init);
      forall id | id in Directory(raw)
        ensures exists i :: 0 <= i < |raw| && raw[i].towerId == id
      {
        if id != raw[|raw| - 1].towerId {
          assert id in Directory(init);
          var i :| 0 <= i < |init| && init[i].towerId == id;
          assert raw[i] == init[i];
        }
      }
      forall id | exists i :: 0 <= i < |raw| && raw[i].towerId == id
        ensures id in Directory(raw)
      {
        var i :| 0 <= i < |raw| && raw[i].towerId == id;
        if i < |init| {
          assert init[i] == raw[i];
        }
      }
    }
  }

  /** For an id listed several times, the directory keeps the last entry. */
  lemma {:induction false} LaterDuplicatesWin(raw: seq<RawTower>, i: nat)
    requires i < |raw|
    requires forall j :: i < j < |raw| ==> raw[j].towerId != raw[i].towerId
    ensures raw[i].towerId in Directory(raw)
    ensures Directory(raw)[raw[i].towerId] == InfoOf(raw[i])
  {
    if i < |raw| - 1 {
      var init := raw[..|raw| - 1];
      assert init[i] == raw[i];
      assert raw[|raw| - 1].towerId != raw[i].towerId;
      LaterDuplicatesWin(init, i);
    }
  }

  /** How an HTTP call ended: no answer at all, or a status and the id the body names. */
  datatype HttpReply = Unreachable(message: string) | Answered(status: nat, predictedTowerId: string)

  /** `response.ok`. */
  predicate IsOk(status: nat) {
    200 <= status <= 299
  }

  datatype LocationResult = LocationResult(predictedTowerId: string, latitude: real, longitude: real, address: string)

  /** `(Math.random() - 0.5) * 0.01`. */
  function Jitter(draw: real): (offset: real) {
    (draw - 0.5) * 0.01
  }

  /** What a location call resolves to, or the message it rejects with. */
  function Located(towers: map<string, TowerInfo>, reply: HttpReply, latDraw: real, lonDraw: real)
    : (r: Result<LocationResult, string>)
  {
    match reply
    case Unreachable(m) => Err(m)
    case Answered(status, id) =>
      if !IsOk(status) then Err("Server error: " + NatToString(status))
      else if id !in towers then Err("Unknown tower ID: " + id)
      else
        var t := towers[id];
        Ok(LocationResult(id, t.latitude + Jitter(latDraw), t.longitude + Jitter(lonDraw), t.address))
  }

  /**
   * A location call succeeds exactly on a 2xx answer naming a tower of the
   * directory; it then returns that id and the tower's address unchanged,
   * and coordinates within `[-0.005, 0.005)` of the tower's.
   */
  lemma LocatedMeaning(towers: map<string, TowerInfo>, reply: HttpReply, latDraw: real, lonDraw: real)
    requires 0.0 <= latDraw < 1.0 && 0.0 <= lonDraw < 1.0
    ensures var r := Located(towers, reply, latDraw, lonDraw);
      && (r.Ok? <==> reply.Answered? && IsOk(reply.status) && reply.predictedTowerId in towers)
      && (reply.Answered? && !IsOk(reply.status) ==> r == Err("Server error: " + NatToString(reply.status)))
      && (reply.Answered? && IsOk(reply.status) && reply.predictedTowerId !in towers ==>
            r == Err("Unknown tower ID: " + reply.predictedTowerId))
      && (r.Ok? ==>
            var t := towers[reply.predictedTowerId];
            && r.value.predictedTowerId == reply.predictedTowerId
            && r.value.address == t.address
            && -0.005 <= r.value.latitude - t.latitude < 0.005
            && -0.005 <= r.value.longitude - t.longitude < 0.005)
  {
  }

  /** The module-level `towerData` table. */
  class TowerDirectory {
    var towers: map<string, TowerInfo>

    /** Before the file is read the table is empty. */
    constructor()
      ensures towers == map[]
    {
      towers := map[];
    }

    /**
     * `loadTowerData`: builds the table entry by entry and installs it
     * once complete. A failed fetch or parse (`None`) installs nothing.
     */
    method Load(file: Option<seq<RawTower>>)
      modifies this
      ensures file.Some? ==> towers == Directory(file.value)
      ensures file.None? ==> towers == old(towers)
    {
      if file.None? {
        return;
      }
      var raw := file.value;
      var acc: map<string, TowerInfo> := map[];
      for i := 0 to |raw|
        invariant acc == Directory(raw[..i])
      {
        assert raw[..i + 1][..i] == raw[..i];
        acc := acc[raw[i].towerId := InfoOf(raw[i])];
      }
      assert raw[..|raw|] == raw;
      towers := acc;
    }

    /** `predictLSTM`, given the service's answer and the two draws. */
    method PredictLstm(reply: HttpReply, latDraw: real, lonDraw: real) returns (r: Result<LocationResult, string>)
      requires 0.0 <= latDraw < 1.0 && 0.0 <= lonDraw < 1.0
      ensures r == Located(towers, reply, latDraw, lonDraw)
    {
      r := Locate(reply, latDraw, lonDraw);
    }

    /** `predictGNN`: the same join against the graph endpoint's answer. */
    method PredictGnn(reply: HttpReply, latDraw: real, lonDraw: real) returns (r: Result<LocationResult, string>)
      requires 0.0 <= latDraw < 1.0 && 0.0 <= lonDraw < 1.0
      ensures r == Located(towers, reply, latDraw, lonDraw)
    {
      r := Locate(reply, latDraw, lonDraw);
    }

    method Locate(reply: HttpReply, latDraw: real, lonDraw: real) returns (r: Result<LocationResult, string>)
      ensures r == Located(towers, reply, latDraw, lonDraw)
    {
      if reply.Unreachable? {
        return Err(reply.message);
      }
      if !IsOk(reply.status) {
        return Err("Server error: " + NatToString(reply.status));
      }
      var id := reply.predictedTowerId;
      if id !in towers {
        return Err("Unknown tower ID: " + id);
      }
      var tower := towers[id];
      var latVariation := Jitter(latDraw);
      var lonVariation := Jitter(lonDraw);
      r := Ok(LocationResult(id, tower.latitude + latVariation, tower.longitude + lonVariation, tower.address));
    }
  }

  /** Until a load succeeds every location call fails, even on a good answer. */
  lemma EmptyDirectoryRejects(reply: HttpReply, latDraw: real, lonDraw: real)
    ensures Located(map[], reply, latDraw, lonDraw).Err?
  {
  }

  // ---------------------------------------------------------------------
  // The mock defaulter score
  // ---------------------------------------------------------------------

  /** The form fields the score reads, as the text the inputs hold. */
  datatype LoanForm = LoanForm(
    income: string,
    loanAmount: string,
    creditScore: string,
    age: string,
    existingLoans: string,
    employmentType: string)

  datatype DefaulterPrediction = DefaulterPrediction(isDefaulter: bool, confidence: int)

  /** `parseInt(text) || 0`. */
  function FieldValue(text: string): (v: int) {
    ParseInt(text).GetOr(0)
  }

  /** A field that does not parse counts as if it held 0. */
  lemma NonNumericCountsAsZero(text: string)
    requires ParseInt(text).None?
    ensures FieldValue(text) == FieldValue("0") == 0
  {
    ParseIntOfIntToString(0);
    assert IntToString(0) == "0";
  }

  /**
   * The income-to-loan term. JavaScript's `loanAmount / 0` is +Infinity
   * for a positive amount and NaN (failing every comparison) otherwise,
   * which the first branch states outright.
   */
  function IncomeRisk(income: int, loanAmount: int): (risk: int) {
    if income == 0 then (if loanAmount > 0 then 30 else 0)
    else
      var ratio := loanAmount as real / income as real;
      if ratio > 5.0 then 30 else if ratio > 3.0 then 20 else if ratio > 2.0 then 10 else 0
  }

  function CreditRisk(creditScore: int): (risk: int) {
    if creditScore < 600 then 35 else if creditScore < 700 then 20 else if creditScore < 750 then 10 else 0
  }

  function AgeRisk(age: int): (risk: int) {
    if age < 25 || age > 60 then 15 else 0
  }

  function EmploymentRisk(employmentType: string): (risk: int) {
    if employmentType == "unemployed" then 40 else if employmentType == "self-employed" then 15 else 0
  }

  /** The deterministic part of the score: the sum of the five risk terms. */
  function BaseRisk(f: LoanForm): (risk: int) {
    IncomeRisk(FieldValue(f.income), FieldValue(f.loanAmount))
    + CreditRisk(FieldValue(f.creditScore))
    + AgeRisk(FieldValue(f.age))
    + FieldValue(f.existingLoans) * 5
    + EmploymentRisk(f.employmentType)
  }

  function Clamp(x: real): (r: real)
    ensures 0.0 <= r <= 100.0
    ensures 0.0 <= x <= 100.0 ==> r == x
  {
    if x < 0.0 then 0.0 else if x > 100.0 then 100.0 else x
  }

  /** The final score: base risk plus a draw-dependent term in `[-10, 10)`, clamped into `[0, 100]`. */
  function RiskScore(f: LoanForm, draw: real): (s: real)
    ensures 0.0 <= s <= 100.0
  {
    Clamp(BaseRisk(f) as real + (draw * 20.0 - 10.0))
  }

  /** `Math.round` on a real: the nearest integer, halves rounded up. */
  function Round(x: real): (n: int) {
    (x + 0.5).Floor
  }

  /**
   * The prediction: a defaulter iff the score exceeds 50, with the score
   * (or its complement) as a confidence that always lies in `[50, 100]`.
   */
  function Assessment(f: LoanForm, draw: real): (p: DefaulterPrediction)
    ensures p.isDefaulter <==> RiskScore(f, draw) > 50.0
    ensures 50 <= p.confidence <= 100
    ensures p.confidence == Round(if p.isDefaulter then RiskScore(f, draw) else 100.0 - RiskScore(f, draw))
  {
    var s := RiskScore(f, draw);
    var d := s > 50.0;
    DefaulterPrediction(d, Round(if d then s else 100.0 - s))
  }

  /** `predictDefaulter`: the score accumulated term by term. */
  method PredictDefaulter(f: LoanForm, draw: real) returns (p: DefaulterPrediction)
    requires 0.0 <= draw < 1.0
    ensures p == Assessment(f, draw)
  {
    var income := FieldValue(f.income);
    var loanAmount := FieldValue(f.loanAmount);
    var creditScore := FieldValue(f.creditScore);
    var age := FieldValue(f.age);
    var existingLoans := FieldValue(f.existingLoans);
    var riskScore: real := 0.0;
    if income == 0 {
      if loanAmount > 0 {
        riskScore := riskScore + 30.0;
      }
    } else {
      var incomeRatio := loanAmount as real / income as real;
      if incomeRatio > 5.0 {
        riskScore := riskScore + 30.0;
      } else if incomeRatio > 3.0 {
        riskScore := riskScore + 20.0;
      } else if incomeRatio > 2.0 {
        riskScore := riskScore + 10.0;
      }
    }
    assert riskScore == IncomeRisk(income, loanAmount) as real;
    if creditScore < 600 {
      riskScore := riskScore + 35.0;
    } else if creditScore < 700 {
      riskScore := riskScore + 20.0;
    } else if creditScore < 750 {
      riskScore := riskScore + 10.0;
    }
    assert riskScore == (IncomeRisk(income, loanAmount) + CreditRisk(creditScore)) as real;
    if age < 25 || age > 60 {
      riskScore := riskScore + 15.0;
    }
    riskScore := riskScore + (existingLoans * 5) as real;
    assert riskScore == (IncomeRisk(income, loanAmount) + CreditRisk(creditScore) + AgeRisk(age)
      + existingLoans * 5) as real;
    if f.employmentType == "unemployed" {
      riskScore := riskScore + 40.0;
    } else if f.employmentType == "self-employed" {
      riskScore := riskScore + 15.0;
    }
    assert riskScore == (IncomeRisk(income, loanAmount) + CreditRisk(creditScore) + AgeRisk(age)
      + existingLoans * 5 + EmploymentRisk(f.employmentType)) as real;
    assert riskScore == BaseRisk(f) as real;
    riskScore := riskScore + (draw * 20.0 - 10.0);
    var capped := if riskScore < 100.0 then riskScore else 100.0;   // Math.min(100, riskScore)
    riskScore := if capped > 0.0 then capped else 0.0;              // Math.max(0, capped)
    assert riskScore == RiskScore(f, draw);
    var isDefaulter := riskScore > 50.0;
    var confidence := Round(if isDefaulter then riskScore else 100.0 - riskScore);
    p := DefaulterPrediction(isDefaulter, confidence);
  }

  /** Each existing loan adds 5 to the base risk, other fields fixed. */
  lemma EachLoanAddsFive(f: LoanForm, loans: int)
    ensures BaseRisk(f.(existingLoans := IntToString(loans + 1)))
         == BaseRisk(f.(existingLoans := IntToString(loans))) + 5
  {
    ParseIntOfIntToString(loans + 1);
    ParseIntOfIntToString(loans);
  }

  /**
   * Against any other employment type, unemployed adds 40 and
   * self-employed adds 15 to the base risk.
   */
  lemma EmploymentPremium(f: LoanForm)
    requires f.employmentType != "unemployed" && f.employmentType != "self-employed"
    ensures BaseRisk(f.(employmentType := "unemployed")) == BaseRisk(f) + 40
    ensures BaseRisk(f.(employmentType := "self-employed")) == BaseRisk(f) + 15
  {
  }

  /**
   * Without the clamp the draw moves the score by less than 10 either way:
   * the random term lies in `[-10, 10)`.
   */
  lemma NoiseBounded(f: LoanForm, draw: real)
    requires 0.0 <= draw < 1.0
    requires 10.0 <= BaseRisk(f) as real <= 90.0
    ensures BaseRisk(f) as real - 10.0 <= RiskScore(f, draw) < BaseRisk(f) as real + 10.0
  {
  }
}
