/** The weekly scheduler jobs (backend/scheduler/jobs/weekly.py): a risk report
    per active fund, a rebalancing check per active fund, and a benchmark
    comparison per active fund.  The risk pipeline (called with a portfolio
    value of 1,000,000 and a full run), the rebalancing agent and the benchmark
    tracker are parameters, and today's date is an input. */
module WeeklyJobs {
  import opened Wrappers
  import opened JsonValues
  import opened Text
  import opened Store
  import ThesisModel

  /** `RiskPipeline.analyze`, given the positions. */
  type RiskAnalysis = seq<Json> -> Result<Json, string>

  /** The rebalancing agent, given the positions. */
  type Rebalancer = seq<Json> -> Result<Json, string>

  /** The benchmark tracker agent, given the positions and the two benchmarks. */
  type Tracker = (seq<Json>, Json, Json) -> Result<Json, string>

  const DriftOptions: seq<string> := ["rebalance", "dismiss"]

  /** Python's `a or b`. */
  function Or(a: Json, b: Json): Json {
    if Truthy(a) then a else b
  }

  /** `[{"ticker": p.ticker, "weight": float(p.target_weight or 0)} for p in positions]`:
      the first weight that does not convert raises. */
  function WeightsData(ps: seq<PositionRow>): (r: Result<seq<Json>, string>)
    ensures r.Success? ==> |r.value| == |ps|
    ensures r.Success? <==> forall k :: 0 <= k < |ps| ==> FloatOr0(ps[k].targetWeight).Success?
    ensures r.Success? ==> forall k :: 0 <= k < |ps| ==>
              && FloatOr0(ps[k].targetWeight).Success?
              && r.value[k] == JObj(map["ticker" := ps[k].ticker, "weight" := JNum(FloatOr0(ps[k].targetWeight).value)])
    decreases |ps|
  {
    if ps == [] then Success([])
    else match FloatOr0(ps[0].targetWeight)
      case Failure(e) => Failure(e)
      case Success(w) =>
        match WeightsData(ps[1..])
        case Failure(e) => Failure(e)
        case Success(rest) => Success([JObj(map["ticker" := ps[0].ticker, "weight" := JNum(w)])] + rest)
  }

  // ---------------------------------------------------------------------
  // Risk reports

  /** `var_data.get(key, {}).get("amount", "").replace("$", "").replace(",", "") or None`. */
  function VarAmount(varData: Json, key: string): (r: Result<Option<string>, string>)
    ensures r.Success? && r.value.Some? ==>
              r.value.value != [] && forall k :: 0 <= k < |r.value.value| ==> r.value.value[k] != '$' && r.value.value[k] != ','
  {
    match Get(varData, key, EmptyObj)
    case Failure(e) => Failure(e)
    case Success(entry) =>
      match Get(entry, "amount", JStr(""))
      case Failure(e) => Failure(e)
      case Success(amount) =>
        if !amount.JStr? then Failure("AttributeError: object has no attribute 'replace'")
        else
          var cleaned := RemoveChar(RemoveChar(amount.s, '$'), ',');
          ThesisModel.NoDollarAfterComma(amount.s);
          Success(if cleaned == [] then None else Some(cleaned))
  }

  /** `len(x)`. */
  function Length(x: Json): Result<nat, string> {
    match x
    case JArr(items) => Success(|items|)
    case JStr(s) => Success(|s|)
    case JObj(m) => Success(|m|)
    case _ => Failure("TypeError: object has no len()")
  }

  /** The items `"; ".join` accepts: strings only. */
  function Strings(xs: seq<Json>): (r: Result<seq<string>, string>)
    ensures r.Success? <==> forall k :: 0 <= k < |xs| ==> xs[k].JStr?
    ensures r.Success? ==> |r.value| == |xs| && forall k :: 0 <= k < |xs| ==> r.value[k] == xs[k].s
    decreases |xs|
  {
    if xs == [] then Success([])
    else if !xs[0].JStr? then Failure("TypeError: sequence item: expected str instance")
    else match Strings(xs[1..])
      case Failure(e) => Failure(e)
      case Success(rest) => Success([xs[0].s] + rest)
  }

  /** The risk alert: only for truthy flags, titled with their number and
      listing the first three. */
  function RiskAlert(fundId: string, flags: Json): (r: Result<Option<AlertRow>, string>)
    ensures !Truthy(flags) ==> r == Success(None)
    ensures r.Success? && r.value.Some? ==>
              && Truthy(flags) && r.value.value.fundId == fundId && r.value.value.kind == "risk"
              && r.value.value.severity == "warning" && !r.value.value.actionRequired
              && r.value.value.actionOptions.None?
  {
    if !Truthy(flags) then Success(None)
    else match Length(flags)
      case Failure(e) => Failure(e)
      case Success(n) =>
        match Prefix(flags, 3)
        case Failure(e) => Failure(e)
        case Success(first) =>
          match Strings(first)
          case Failure(e) => Failure(e)
          case Success(texts) =>
            Success(Some(AlertRow(fundId, "risk", JNull, "Weekly Risk Report: " + NatToString(n) + " flag(s)",
                                  JStr(Join("; ", texts)), "warning", false, None)))
  }

  /** What the `try` does for one fund: skip it, fail before the report is
      added, or add the report (and the alert, when it could be built). */
  datatype RiskOutcome = Skipped | Failed | Reported(report: RiskReportRow, alert: Option<AlertRow>)

  function RiskStep(fund: FundRow, positions: seq<PositionRow>, pipeline: RiskAnalysis, today: string)
    : (r: RiskOutcome)
    ensures ActivePositions(positions, fund.id) == [] ==> r == Skipped
    ensures r.Reported? ==> r.report.fundId == fund.id && r.report.reportDate == today
    ensures r.Reported? && r.alert.Some? ==> r.alert.value.fundId == fund.id
  {
    var active := ActivePositions(positions, fund.id);
    if active == [] then Skipped
    else match WeightsData(active)
      case Failure(_) => Failed
      case Success(data) =>
        match pipeline(data)
        case Failure(_) => Failed
        case Success(reportData) =>
          match Get(reportData, "summary", EmptyObj)
          case Failure(_) => Failed
          case Success(_) =>
            var rd := reportData.fields;
            match Get(Lookup(rd, "var", EmptyObj), "var_metrics", EmptyObj)
            case Failure(_) => Failed
            case Success(varData) =>
              match VarAmount(varData, "daily_var_95")
              case Failure(_) => Failed
              case Success(var95) =>
                match VarAmount(varData, "daily_var_99")
                case Failure(_) => Failed
                case Success(var99) =>
                  var report := RiskReportRow(fund.id, today, var95, var99,
                                              Lookup(rd, "stress_tests", JNull), Lookup(rd, "monte_carlo", JNull),
                                              Lookup(rd, "correlations", JNull), Lookup(rd, "risk_flags", JNull),
                                              Lookup(rd, "recommendations", JNull));
                  var alert := RiskAlert(fund.id, Lookup(rd, "risk_flags", JArr([])));
                  Reported(report, if alert.Success? then alert.value else None)
  }

  function ReportOf(o: RiskOutcome): (r: seq<RiskReportRow>)
    ensures |r| <= 1
  {
    if o.Reported? then [o.report] else []
  }

  function RiskAlertOf(o: RiskOutcome): (r: seq<AlertRow>)
    ensures |r| <= 1
  {
    if o.Reported? && o.alert.Some? then [o.alert.value] else []
  }

  /** The reports added, fund after fund. */
  function Reports(funds: seq<FundRow>, positions: seq<PositionRow>, pipeline: RiskAnalysis, today: string)
    : (r: seq<RiskReportRow>)
    ensures |r| <= |funds|
    decreases |funds|
  {
    if funds == [] then []
    else Reports(funds[..|funds| - 1], positions, pipeline, today)
         + ReportOf(RiskStep(funds[|funds| - 1], positions, pipeline, today))
  }

  /** The risk alerts added, fund after fund. */
  function RiskAlerts(funds: seq<FundRow>, positions: seq<PositionRow>, pipeline: RiskAnalysis, today: string)
    : (r: seq<AlertRow>)
    ensures |r| <= |funds|
    decreases |funds|
  {
    if funds == [] then []
    else RiskAlerts(funds[..|funds| - 1], positions, pipeline, today)
         + RiskAlertOf(RiskStep(funds[|funds| - 1], positions, pipeline, today))
  }

  /** The loop of `_generate_risk_reports`: the rows added to the session and the
      counter, which goes up right after each report is added. */
  method CollectReports(funds: seq<FundRow>, positions: seq<PositionRow>, pipeline: RiskAnalysis, today: string)
    returns (reports: seq<RiskReportRow>, alerts: seq<AlertRow>, generated: nat)
    ensures reports == Reports(funds, positions, pipeline, today)
    ensures alerts == RiskAlerts(funds, positions, pipeline, today)
    ensures generated == |reports|
  {
    reports, alerts, generated := [], [], 0;
    for i := 0 to |funds|
      invariant reports == Reports(funds[..i], positions, pipeline, today)
      invariant alerts == RiskAlerts(funds[..i], positions, pipeline, today)
      invariant generated == |reports|
    {
      assert funds[..i + 1][..i] == funds[..i];
      var outcome := RiskStep(funds[i], positions, pipeline, today);
      if !outcome.Reported? {
        continue;
      }
      reports := reports + [outcome.report];
      generated := generated + 1;
      if outcome.alert.Some? {
        alerts := alerts + [outcome.alert.value];
      }
    }
    assert funds[..|funds|] == funds;
  }

  /** `_generate_risk_reports`: everything added is committed at the end. */
  method GenerateRiskReports(db: Database, pipeline: RiskAnalysis, today: string) returns (r: Obj)
    modifies db
    ensures var funds := ActiveFunds(old(db.funds));
            && db.riskReports == old(db.riskReports) + Reports(funds, old(db.positions), pipeline, today)
            && db.alerts == old(db.alerts) + RiskAlerts(funds, old(db.positions), pipeline, today)
            && r == map["status" := JStr("complete"),
                        "reports_generated" := JNum(|Reports(funds, old(db.positions), pipeline, today)| as real)]
    ensures db.funds == old(db.funds) && db.positions == old(db.positions) && db.theses == old(db.theses)
    ensures db.conversations == old(db.conversations)
  {
    var reports, alerts, generated := CollectReports(ActiveFunds(db.funds), db.positions, pipeline, today);
    db.riskReports := db.riskReports + reports;
    db.alerts := db.alerts + alerts;
    r := map["status" := JStr("complete"), "reports_generated" := JNum(generated as real)];
  }

  // ---------------------------------------------------------------------
  // Rebalancing check

  /** A position as the rebalancing agent sees it; the current weight falls back
      to the target weight, then to 0. */
  function RebalanceEntry(p: PositionRow): Result<Json, string> {
    match FloatOr0(p.targetWeight)
    case Failure(e) => Failure(e)
    case Success(target) =>
      match FloatOr0(Or(p.currentWeight, p.targetWeight))
      case Failure(e) => Failure(e)
      case Success(current) =>
        Success(JObj(map["ticker" := p.ticker, "target_weight" := JNum(target), "current_weight" := JNum(current)]))
  }

  function RebalanceData(ps: seq<PositionRow>): (r: Result<seq<Json>, string>)
    ensures r.Success? ==> |r.value| == |ps|
    decreases |ps|
  {
    if ps == [] then Success([])
    else match RebalanceEntry(ps[0])
      case Failure(e) => Failure(e)
      case Success(entry) =>
        match RebalanceData(ps[1..])
        case Failure(e) => Failure(e)
        case Success(rest) => Success([entry] + rest)
  }

  /** What the `try` does for one fund: not counted (skipped, or raised before the
      counter), or counted, with the drift alert when rebalancing is needed. */
  datatype RebalanceOutcome = NotChecked | Checked(alert: Option<AlertRow>)

  function RebalanceStep(fund: FundRow, positions: seq<PositionRow>, agent: Rebalancer): (r: RebalanceOutcome)
    ensures ActivePositions(positions, fund.id) == [] ==> r == NotChecked
    ensures r.Checked? && r.alert.Some? ==>
              var a := r.alert.value;
              && a.fundId == fund.id && a.kind == "drift" && a.title == "Rebalancing Recommended"
              && a.severity == "warning" && a.actionRequired && a.actionOptions == Some(DriftOptions)
  {
    var active := ActivePositions(positions, fund.id);
    if active == [] then NotChecked
    else match RebalanceData(active)
      case Failure(_) => NotChecked
      case Success(data) =>
        match agent(data)
        case Failure(_) => NotChecked
        case Success(result) =>
          match Get(result, "needs_rebalancing", JNull)
          case Failure(_) => Checked(None)
          case Success(needs) =>
            if !Truthy(needs) then Checked(None)
            else Checked(Some(AlertRow(fund.id, "drift", JNull, "Rebalancing Recommended",
                                       Lookup(result.fields, "summary", JStr("Portfolio drift exceeds threshold")),
                                       "warning", true, Some(DriftOptions))))
  }

  /** `funds_checked`. */
  function FundsChecked(funds: seq<FundRow>, positions: seq<PositionRow>, agent: Rebalancer): (r: nat)
    ensures r <= |funds|
    decreases |funds|
  {
    if funds == [] then 0
    else FundsChecked(funds[..|funds| - 1], positions, agent)
         + if RebalanceStep(funds[|funds| - 1], positions, agent).Checked? then 1 else 0
  }

  /** The drift alerts added, fund after fund. */
  function DriftAlerts(funds: seq<FundRow>, positions: seq<PositionRow>, agent: Rebalancer): (r: seq<AlertRow>)
    decreases |funds|
  {
    if funds == [] then []
    else
      var o := RebalanceStep(funds[|funds| - 1], positions, agent);
      DriftAlerts(funds[..|funds| - 1], positions, agent) + if o.Checked? && o.alert.Some? then [o.alert.value] else []
  }

  /** The loop of `_check_rebalancing`, with its two counters. */
  method CollectDrift(funds: seq<FundRow>, positions: seq<PositionRow>, agent: Rebalancer)
    returns (alerts: seq<AlertRow>, checked: nat, needed: nat)
    ensures alerts == DriftAlerts(funds, positions, agent)
    ensures checked == FundsChecked(funds, positions, agent)
    ensures needed == |alerts|
  {
    alerts, checked, needed := [], 0, 0;
    for i := 0 to |funds|
      invariant alerts == DriftAlerts(funds[..i], positions, agent)
      invariant checked == FundsChecked(funds[..i], positions, agent)
      invariant needed == |alerts|
    {
      assert funds[..i + 1][..i] == funds[..i];
      var outcome := RebalanceStep(funds[i], positions, agent);
      if !outcome.Checked? {
        continue;
      }
      checked := checked + 1;
      if outcome.alert.Some? {
        needed := needed + 1;
        alerts := alerts + [outcome.alert.value];
      }
    }
    assert funds[..|funds|] == funds;
  }

  /** `_check_rebalancing`: the drift alerts are committed at the end. */
  method CheckRebalancing(db: Database, agent: Rebalancer) returns (r: Obj)
    modifies db
    ensures var funds := ActiveFunds(old(db.funds));
            var added := DriftAlerts(funds, old(db.positions), agent);
            && db.alerts == old(db.alerts) + added
            && r == map["status" := JStr("complete"),
                        "funds_checked" := JNum(FundsChecked(funds, old(db.positions), agent) as real),
                        "rebalance_needed" := JNum(|added| as real)]
    ensures db.funds == old(db.funds) && db.positions == old(db.positions) && db.theses == old(db.theses)
    ensures db.riskReports == old(db.riskReports) && db.conversations == old(db.conversations)
  {
    var alerts, checked, needed := CollectDrift(ActiveFunds(db.funds), db.positions, agent);
    db.alerts := db.alerts + alerts;
    r := map["status" := JStr("complete"), "funds_checked" := JNum(checked as real),
             "rebalance_needed" := JNum(needed as real)];
  }

  // ---------------------------------------------------------------------
  // Performance update

  /** The `try` for one fund: counted once the tracker answered.  What it
      answered is only printed. */
  predicate PerformanceCounted(fund: FundRow, positions: seq<PositionRow>, tracker: Tracker) {
    match WeightsData(ActivePositions(positions, fund.id))
    case Failure(_) => false
    case Success(data) => tracker(data, Or(fund.benchmarkPrimary, JStr("QQQ")), Or(fund.benchmarkSecondary, JStr("SPY"))).Success?
  }

  /** `funds_updated`. */
  function FundsUpdated(funds: seq<FundRow>, positions: seq<PositionRow>, tracker: Tracker): (r: nat)
    ensures r <= |funds|
    decreases |funds|
  {
    if funds == [] then 0
    else FundsUpdated(funds[..|funds| - 1], positions, tracker)
         + if PerformanceCounted(funds[|funds| - 1], positions, tracker) then 1 else 0
  }

  /** The loop of `_update_performance` and its counter. */
  method CountUpdated(funds: seq<FundRow>, positions: seq<PositionRow>, tracker: Tracker) returns (updated: nat)
    ensures updated == FundsUpdated(funds, positions, tracker)
  {
    updated := 0;
    for i := 0 to |funds|
      invariant updated == FundsUpdated(funds[..i], positions, tracker)
    {
      assert funds[..i + 1][..i] == funds[..i];
      var fund := funds[i];
      var data := WeightsData(ActivePositions(positions, fund.id));
      if data.Failure? {
        continue;
      }
      var answer := tracker(data.value, Or(fund.benchmarkPrimary, JStr("QQQ")), Or(fund.benchmarkSecondary, JStr("SPY")));
      if answer.Success? {
        updated := updated + 1;
      }
    }
    assert funds[..|funds|] == funds;
  }

  /** `_update_performance`: nothing is written. */
  method UpdatePerformance(db: Database, tracker: Tracker) returns (r: Obj)
    ensures r == map["status" := JStr("complete"),
                     "funds_updated" := JNum(FundsUpdated(ActiveFunds(db.funds), db.positions, tracker) as real)]
  {
    var updated := CountUpdated(ActiveFunds(db.funds), db.positions, tracker);
    r := map["status" := JStr("complete"), "funds_updated" := JNum(updated as real)];
  }

  // ---------------------------------------------------------------------
  // Properties of the risk reports

  /** Every report belongs to an active fund that has active positions. */
  lemma {:induction false} ReportsOnlyForFundsWithPositions(funds: seq<FundRow>, positions: seq<PositionRow>,
                                                            pipeline: RiskAnalysis, today: string)
    ensures forall rep :: rep in Reports(funds, positions, pipeline, today) ==>
              exists f :: f in funds && f.id == rep.fundId && ActivePositions(positions, f.id) != []
    decreases |funds|
  {
    if funds != [] {
      var init := funds[..|funds| - 1];
      var f := funds[|funds| - 1];
      ReportsOnlyForFundsWithPositions(init, positions, pipeline, today);
      assert f in funds;
      forall g | g in init ensures g in funds {
      }
    }
  }

  /** A fund whose weights convert but whose pipeline raises gets no report. */
  lemma PipelineFailureNoReport(fund: FundRow, positions: seq<PositionRow>, pipeline: RiskAnalysis, today: string,
                                data: seq<Json>)
    requires ActivePositions(positions, fund.id) != []
    requires WeightsData(ActivePositions(positions, fund.id)) == Success(data) && pipeline(data).Failure?
    ensures RiskStep(fund, positions, pipeline, today) == Failed
  {
  }

  /** Once the pipeline answers and both VaR amounts can be read, the report is
      added and counted, whether or not its alert can be built. */
  lemma ReportedOnceVarRead(fund: FundRow, positions: seq<PositionRow>, pipeline: RiskAnalysis, today: string,
                            data: seq<Json>, rd: Obj, varData: Json, var95: Option<string>, var99: Option<string>)
    requires ActivePositions(positions, fund.id) != []
    requires WeightsData(ActivePositions(positions, fund.id)) == Success(data) && pipeline(data) == Success(JObj(rd))
    requires Get(Lookup(rd, "var", EmptyObj), "var_metrics", EmptyObj) == Success(varData)
    requires VarAmount(varData, "daily_var_95") == Success(var95) && VarAmount(varData, "daily_var_99") == Success(var99)
    ensures var o := RiskStep(fund, positions, pipeline, today);
            && o.Reported?
            && o.report == RiskReportRow(fund.id, today, var95, var99,
                                         Lookup(rd, "stress_tests", JNull), Lookup(rd, "monte_carlo", JNull),
                                         Lookup(rd, "correlations", JNull), Lookup(rd, "risk_flags", JNull),
                                         Lookup(rd, "recommendations", JNull))
            && (o.alert.Some? <==> RiskAlert(fund.id, Lookup(rd, "risk_flags", JArr([]))).Success?
                                   && RiskAlert(fund.id, Lookup(rd, "risk_flags", JArr([]))).value.Some?)
            && (!Truthy(Lookup(rd, "risk_flags", JArr([]))) ==> o.alert.None?)
  {
  }

  /** A VaR amount that is a string loses its "$" and "," signs; nothing left
      is stored as `None`. */
  lemma VarAmountOf(m: Obj, key: string, e: Obj, s: string)
    requires key in m && m[key] == JObj(e) && "amount" in e && e["amount"] == JStr(s)
    ensures var cleaned := RemoveChar(RemoveChar(s, '$'), ',');
            VarAmount(JObj(m), key) == Success(if cleaned == [] then None else Some(cleaned))
  {
  }

  /** A missing VaR entry or amount is stored as `None`. */
  lemma VarAmountMissing(m: Obj, key: string)
    requires key !in m || (m[key].JObj? && "amount" !in m[key].fields)
    ensures VarAmount(JObj(m), key) == Success(None)
  {
    assert RemoveChar(RemoveChar("", '$'), ',') == "";
  }

  /** "$12,345.67" is stored as "12345.67". */
  lemma VarAmountThousands(m: Obj, key: string, e: Obj, a: string, b: string, c: string)
    requires AllDigits(a) && AllDigits(b) && AllDigits(c)
    requires key in m && m[key] == JObj(e) && "amount" in e && e["amount"] == JStr("$" + a + "," + b + "." + c)
    ensures VarAmount(JObj(m), key) == Success(Some(a + b + "." + c))
  {
    ThesisModel.ThousandsCleaned(a, b, c);
    VarAmountOf(m, key, e, "$" + a + "," + b + "." + c);
  }

  /** A non-empty list of string flags gives the alert titled with their number,
      whose message joins the first three with "; ". */
  lemma RiskAlertForFlags(fundId: string, items: seq<Json>)
    requires items != [] && forall k :: 0 <= k < |items| ==> items[k].JStr?
    ensures var first := if |items| <= 3 then items else items[..3];
            && Strings(first).Success?
            && RiskAlert(fundId, JArr(items))
               == Success(Some(AlertRow(fundId, "risk", JNull, "Weekly Risk Report: " + NatToString(|items|) + " flag(s)",
                                        JStr(Join("; ", Strings(first).value)), "warning", false, None)))
  {
    var first := if |items| <= 3 then items else items[..3];
    assert Truthy(JArr(items));
    assert Length(JArr(items)) == Success(|items|);
    assert Prefix(JArr(items), 3) == Success(first);
    assert forall k :: 0 <= k < |first| ==> first[k] == items[k];
    assert Strings(first).Success?;
  }

  // ---------------------------------------------------------------------
  // Properties of the rebalancing check

  /** The current weight the agent sees is the position's current weight when
      it is set, else its target weight (0 when that is unset too). */
  lemma CurrentWeightFallback(p: PositionRow)
    requires p.targetWeight.JNum? && (p.currentWeight.JNum? || p.currentWeight.JNull?)
    ensures RebalanceEntry(p)
            == Success(JObj(map["ticker" := p.ticker, "target_weight" := JNum(p.targetWeight.n),
                                "current_weight" := JNum(if Truthy(p.currentWeight) then p.currentWeight.n else p.targetWeight.n)]))
  {
  }

  /** Once the agent answers with a dict the fund is counted, and a drift alert
      is raised exactly when `needs_rebalancing` is truthy. */
  lemma DriftAlertIffNeeded(fund: FundRow, positions: seq<PositionRow>, agent: Rebalancer, data: seq<Json>, m: Obj)
    requires ActivePositions(positions, fund.id) != []
    requires RebalanceData(ActivePositions(positions, fund.id)) == Success(data) && agent(data) == Success(JObj(m))
    ensures var o := RebalanceStep(fund, positions, agent);
            && o.Checked?
            && (o.alert.Some? <==> Truthy(Lookup(m, "needs_rebalancing", JNull)))
            && (o.alert.Some? ==> o.alert.value.message == Lookup(m, "summary", JStr("Portfolio drift exceeds threshold")))
  {
  }

  /** An answer that is not a dict is still counted as checked, without alert. */
  lemma NonDictAnswerCounted(fund: FundRow, positions: seq<PositionRow>, agent: Rebalancer, data: seq<Json>, answer: Json)
    requires ActivePositions(positions, fund.id) != []
    requires RebalanceData(ActivePositions(positions, fund.id)) == Success(data) && agent(data) == Success(answer)
    requires !answer.JObj?
    ensures RebalanceStep(fund, positions, agent) == Checked(None)
  {
  }

  /** `rebalance_needed` never exceeds `funds_checked`. */
  lemma {:induction false} NeededAtMostChecked(funds: seq<FundRow>, positions: seq<PositionRow>, agent: Rebalancer)
    ensures |DriftAlerts(funds, positions, agent)| <= FundsChecked(funds, positions, agent)
    decreases |funds|
  {
    if funds != [] {
      NeededAtMostChecked(funds[..|funds| - 1], positions, agent);
    }
  }

  // ---------------------------------------------------------------------
  // Properties of the performance update

  /** A fund without active positions is not skipped: the tracker is asked with
      an empty list and the default benchmarks "QQQ" and "SPY" when none are set. */
  lemma PerformanceNoSkip(fund: FundRow, positions: seq<PositionRow>, tracker: Tracker)
    requires ActivePositions(positions, fund.id) == []
    ensures PerformanceCounted(fund, positions, tracker)
            == tracker([], Or(fund.benchmarkPrimary, JStr("QQQ")), Or(fund.benchmarkSecondary, JStr("SPY"))).Success?
    ensures !Truthy(fund.benchmarkPrimary) && !Truthy(fund.benchmarkSecondary) ==>
              PerformanceCounted(fund, positions, tracker) == tracker([], JStr("QQQ"), JStr("SPY")).Success?
  {
  }
}
