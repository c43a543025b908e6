/** Portfolio risk report (backend/orchestrator/pipelines/risk_pipeline.py):
    the stress-test and VaR agents always run, Monte Carlo and correlation only
    in a full run; the report adds a summary, a risk level, flags and
    recommendations derived from the agents' results.  The agents' outcomes
    are inputs in task order; the `:,.0f` currency formatting of the portfolio
    value is the parameter `money`. */
module RiskPipeline {
  import opened Wrappers
  import opened Text
  import opened JsonValues
  import BaseAgent

  const DiversificationFlag := "Diversification quality needs improvement"

  /** The agent results the report is built from; a slot of an agent that did
      not run is `{}`. */
  datatype Slots = Slots(stress: Obj, valueAtRisk: Obj, mc: Obj, corr: Obj)

  /** Slot pairing: results in task order, failures settled to `{"_error": …}`. */
  function SlotsOf(runFull: bool, outcomes: seq<Result<Obj, string>>): (r: Slots)
    requires |outcomes| == if runFull then 4 else 2
    ensures r.stress == BaseAgent.Settled(outcomes[0]) && r.valueAtRisk == BaseAgent.Settled(outcomes[1])
    ensures runFull ==> r.mc == BaseAgent.Settled(outcomes[2]) && r.corr == BaseAgent.Settled(outcomes[3])
    ensures !runFull ==> r.mc == map[] && r.corr == map[]
  {
    if runFull then
      Slots(BaseAgent.Settled(outcomes[0]), BaseAgent.Settled(outcomes[1]),
            BaseAgent.Settled(outcomes[2]), BaseAgent.Settled(outcomes[3]))
    else Slots(BaseAgent.Settled(outcomes[0]), BaseAgent.Settled(outcomes[1]), map[], map[])
  }

  /** `o.get(k1, {}).get(k2, default)`: the inner `.get` needs a dict. */
  function Get2(o: Obj, k1: string, k2: string, default: Json): Result<Json, string> {
    Get(Lookup(o, k1, EmptyObj), k2, default)
  }

  /** `o.get(k1, {}).get(k2, {}).get(k3, default)`. */
  function Get3(o: Obj, k1: string, k2: string, k3: string, default: Json): Result<Json, string> {
    match Get2(o, k1, k2, EmptyObj)
    case Failure(e) => Failure(e)
    case Success(x) => Get(x, k3, default)
  }

  // ---------------------------------------------------------------------
  // Overall risk level

  function Abs(x: real): real {
    if x < 0.0 then -x else x
  }

  /** The classification of the worst-case decline, in percent. */
  function Level(worstPct: real): string {
    if worstPct > 50.0 then "HIGH"
    else if worstPct > 35.0 then "MODERATE-HIGH"
    else if worstPct > 25.0 then "MODERATE"
    else "LOW-MODERATE"
  }

  /** The position of a level on the scale, lowest first. */
  function Rank(level: string): nat {
    if level == "HIGH" then 3
    else if level == "MODERATE-HIGH" then 2
    else if level == "MODERATE" then 1
    else 0
  }

  /** The `try` block: every "%" and "-" removed, then `abs(float(…))`; a
      value without `.replace` or text that does not parse gives 50. */
  function DeclinePercent(worst: Json): (r: real)
    ensures r >= 0.0
  {
    match worst
    case JStr(s) =>
      (match ParseDecimal(RemoveChar(RemoveChar(s, '%'), '-'))
       case Some(v) => Abs(v)
       case None => 50.0)
    case _ => 50.0
  }

  /** `_assess_overall_risk`; only the stress result is consulted.  Reading the
      decline happens outside the `try`, so a non-dict scenario raises. */
  function AssessOverallRisk(stress: Obj): (r: Result<string, string>)
    ensures r.Success? <==> "worst_case_scenario" !in stress || stress["worst_case_scenario"].JObj?
    ensures r.Success? ==> r.value in {"HIGH", "MODERATE-HIGH", "MODERATE", "LOW-MODERATE"}
  {
    match Get2(stress, "worst_case_scenario", "portfolio_decline", JStr("-50%"))
    case Failure(e) => Failure(e)
    case Success(worst) => Success(Level(DeclinePercent(worst)))
  }

  // ---------------------------------------------------------------------
  // Summary

  /** The report's `summary` entries. */
  datatype RiskSummary = RiskSummary(worstCaseDrawdown: Json, dailyVar95: Json, probabilityOfLoss: Json,
                                     effectivePositions: Json, overallRiskLevel: string)

  /** `_generate_summary`, its entries evaluated in order. */
  function Summary(s: Slots): (r: Result<RiskSummary, string>)
    ensures r.Success? ==> AssessOverallRisk(s.stress) == Success(r.value.overallRiskLevel)
    ensures r.Success? && s.mc == map[] ==> r.value.probabilityOfLoss == JStr("N/A")
    ensures r.Success? && s.corr == map[] ==> r.value.effectivePositions == JStr("N/A")
  {
    match Get2(s.stress, "worst_case_scenario", "portfolio_decline", JStr("N/A"))
    case Failure(e) => Failure(e)
    case Success(drawdown) =>
      match Get3(s.valueAtRisk, "var_metrics", "daily_var_95", "percent", JStr("N/A"))
      case Failure(e) => Failure(e)
      case Success(dailyVar) =>
        match (if s.mc != map[] then Get2(s.mc, "outcome_probabilities", "prob_loss_gt_10pct", JStr("N/A"))
               else Success(JStr("N/A")))
        case Failure(e) => Failure(e)
        case Success(probLoss) =>
          match (if s.corr != map[] then Get2(s.corr, "portfolio_summary", "effective_positions", JStr("N/A"))
                 else Success(JStr("N/A")))
          case Failure(e) => Failure(e)
          case Success(effective) =>
            match AssessOverallRisk(s.stress)
            case Failure(e) => Failure(e)
            case Success(level) =>
              Success(RiskSummary(drawdown, dailyVar, probLoss, effective, level))
  }

  // ---------------------------------------------------------------------
  // Flags

  /** `o[key][:n]` when `o.get(key)` is truthy, else nothing. */
  function TopItems(o: Obj, key: string, n: nat): (r: Result<seq<Json>, string>)
    ensures r.Success? ==> |r.value| <= n
    ensures !Truthy(Lookup(o, key, JNull)) ==> r == Success([])
  {
    if Truthy(Lookup(o, key, JNull)) then Prefix(o[key], n) else Success([])
  }

  /** The diversification flag: only for a non-empty correlation result whose
      score (default "5/10") starts with "3", "4" or "5"; `startswith` needs a string. */
  function DiversificationFlags(corr: Obj): (r: Result<seq<Json>, string>)
    ensures r.Success? ==> |r.value| <= 1
    ensures corr == map[] ==> r == Success([])
  {
    if corr == map[] then Success([])
    else match Get2(corr, "diversification_assessment", "score", JStr("5/10"))
      case Failure(e) => Failure(e)
      case Success(score) =>
        if !score.JStr? then Failure("AttributeError: object has no attribute 'startswith'")
        else if StartsWith(score.s, "3") || StartsWith(score.s, "4") || StartsWith(score.s, "5") then
          Success([JStr(DiversificationFlag)])
        else Success([])
  }

  /** `float(var_pct.replace("%", "")) > 3` inside the `try`: a non-string or
      unparsable percent adds nothing. */
  function HighVar(varPct: Json): bool {
    varPct.JStr? &&
    match ParseDecimal(RemoveChar(varPct.s, '%'))
    case Some(v) => v > 3.0
    case None => false
  }

  function VarFlags(valueAtRisk: Obj): (r: Result<seq<Json>, string>)
    ensures r.Success? ==> |r.value| <= 1
  {
    match Get3(valueAtRisk, "var_metrics", "daily_var_95", "percent", JStr("0%"))
    case Failure(e) => Failure(e)
    case Success(p) =>
      if HighVar(p) then Success([JStr("High daily VaR of " + p.s)]) else Success([])
  }

  /** `acc.extend(more)` where computing either part may have raised; the
      first failure wins. */
  function Extend(acc: Result<seq<Json>, string>, more: Result<seq<Json>, string>)
    : (r: Result<seq<Json>, string>)
    ensures acc.Failure? ==> r == acc
    ensures acc.Success? && more.Failure? ==> r == Failure(more.error)
    ensures acc.Success? && more.Success? ==> r == Success(acc.value + more.value)
  {
    match acc
    case Failure(e) => Failure(e)
    case Success(x) =>
      match more
      case Failure(e) => Failure(e)
      case Success(y) => Success(x + y)
  }

  /** The flag list before the final `[:5]`. */
  function Flags(s: Slots): Result<seq<Json>, string> {
    Extend(Extend(TopItems(s.stress, "risk_flags", 2), DiversificationFlags(s.corr)), VarFlags(s.valueAtRisk))
  }

  /** `_identify_flags`: the extends and appends, then `flags[:5]`. */
  method IdentifyFlags(s: Slots) returns (r: Result<seq<Json>, string>)
    ensures r.Success? <==> Flags(s).Success?
    ensures r.Success? ==> r.value == Flags(s).value[..Min(5, |Flags(s).value|)]
  {
    var flags: seq<Json> := [];
    var stress := TopItems(s.stress, "risk_flags", 2);
    if stress.Failure? { return Failure(stress.error); }
    flags := flags + stress.value;
    assert flags == stress.value;
    var div := DiversificationFlags(s.corr);
    if div.Failure? { return Failure(div.error); }
    flags := flags + div.value;
    var vf := VarFlags(s.valueAtRisk);
    if vf.Failure? { return Failure(vf.error); }
    flags := flags + vf.value;
    return Success(flags[..Min(5, |flags|)]);
  }

  function Min(a: nat, b: nat): nat {
    if a < b then a else b
  }

  // ---------------------------------------------------------------------
  // Recommendations

  /** The hash keys of a list's elements. */
  function KeysOf(xs: seq<Json>): set<Json> {
    set k | 0 <= k < |xs| :: Key(xs[k])
  }

  lemma KeysOfSnoc(xs: seq<Json>, x: Json)
    ensures KeysOf(xs + [x]) == KeysOf(xs) + {Key(x)}
  {
    var ys := xs + [x];
    forall y | y in KeysOf(ys) ensures y in KeysOf(xs) + {Key(x)} {
      var k :| 0 <= k < |ys| && y == Key(ys[k]);
      if k < |xs| { assert ys[k] == xs[k]; }
    }
    forall y | y in KeysOf(xs) ensures y in KeysOf(ys) {
      var k :| 0 <= k < |xs| && y == Key(xs[k]);
      assert ys[k] == xs[k];
    }
    assert Key(ys[|xs|]) in KeysOf(ys);
  }

  /** `list(set(xs))` of hashable elements, in first-occurrence order: one
      element per hash key. */
  function Distinct(xs: seq<Json>): (r: seq<Json>)
    ensures |r| <= |xs|
    ensures forall k :: 0 <= k < |r| ==> r[k] in xs
    ensures KeysOf(r) == KeysOf(xs)
    ensures forall i, j :: 0 <= i < j < |r| ==> Key(r[i]) != Key(r[j])
  {
    if xs == [] then []
    else
      var n := |xs| - 1;
      var p := Distinct(xs[..n]);
      assert xs == xs[..n] + [xs[n]];
      KeysOfSnoc(xs[..n], xs[n]);
      if Key(xs[n]) in KeysOf(p) then p
      else
        KeysOfSnoc(p, xs[n]);
        assert forall i :: 0 <= i < |p| ==> Key(p[i]) in KeysOf(p);
        p + [xs[n]]
  }

  /** The concatenated recommendations before deduplication. */
  function RecommendationSources(s: Slots): Result<seq<Json>, string> {
    Extend(Extend(TopItems(s.stress, "recommendations", 2), TopItems(s.valueAtRisk, "recommendations", 1)),
           if s.corr != map[] then TopItems(s.corr, "recommendations", 2) else Success([]))
  }

  /** The recommendations as a value: what `CompileRecommendations` computes. */
  function Recommendations(s: Slots): Result<seq<Json>, string> {
    match RecommendationSources(s)
    case Failure(e) => Failure(e)
    case Success(recs) =>
      if forall k :: 0 <= k < |recs| ==> Hashable(recs[k]) then
        var d := Distinct(recs);
        Success(d[..Min(5, |d|)])
      else Failure("TypeError: unhashable type")
  }

  /** `_compile_recommendations`: deduplicated, at most five; `set()` raises
      `TypeError` on a list or dict element. */
  method CompileRecommendations(s: Slots) returns (r: Result<seq<Json>, string>)
    ensures r == Recommendations(s)
  {
    var recs: seq<Json> := [];
    var a := TopItems(s.stress, "recommendations", 2);
    if a.Failure? { return Failure(a.error); }
    recs := recs + a.value;
    var b := TopItems(s.valueAtRisk, "recommendations", 1);
    if b.Failure? { return Failure(b.error); }
    recs := recs + b.value;
    assert recs == a.value + b.value;
    if s.corr != map[] {
      var c := TopItems(s.corr, "recommendations", 2);
      if c.Failure? { return Failure(c.error); }
      recs := recs + c.value;
    } else {
      assert recs + [] == recs;
    }
    assert RecommendationSources(s) == Success(recs);
    if exists k :: 0 <= k < |recs| && !Hashable(recs[k]) {
      return Failure("TypeError: unhashable type");
    }
    var d := Distinct(recs);
    return Success(d[..Min(5, |d|)]);
  }

  // ---------------------------------------------------------------------
  // The report

  /** The report; `monteCarlo` and `correlations` are `None` in a core run. */
  datatype RiskReport = RiskReport(
    positionsCount: nat, totalValue: string, positions: seq<Json>,
    stressTests: Obj, valueAtRisk: Obj, monteCarlo: Option<Obj>, correlations: Option<Obj>,
    summary: RiskSummary, riskFlags: seq<Json>, recommendations: seq<Json>)

  /** `analyze` after the agents ran: the report's entries evaluated in order. */
  function Report(positions: seq<Json>, portfolioValue: real, runFull: bool,
                  outcomes: seq<Result<Obj, string>>, money: real -> string): (r: Result<RiskReport, string>)
    requires |outcomes| == if runFull then 4 else 2
    ensures r.Success? ==> Summary(SlotsOf(runFull, outcomes)) == Success(r.value.summary)
    ensures r.Success? ==> |r.value.riskFlags| <= 5 && r.value.positions == positions
    ensures r.Success? ==> (r.value.monteCarlo.Some? <==> runFull) && (r.value.correlations.Some? <==> runFull)
  {
    var s := SlotsOf(runFull, outcomes);
    match Summary(s)
    case Failure(e) => Failure(e)
    case Success(summary) =>
      match Flags(s)
      case Failure(e) => Failure(e)
      case Success(flags) =>
        match Recommendations(s)
        case Failure(e) => Failure(e)
        case Success(recs) =>
          Success(RiskReport(
            |positions|, "$" + money(portfolioValue), positions,
            s.stress, s.valueAtRisk,
            if runFull then Some(s.mc) else None,
            if runFull then Some(s.corr) else None,
            summary, flags[..Min(5, |flags|)], recs))
  }

  // ---------------------------------------------------------------------
  // Properties

  /** The level grows with the decline. */
  lemma LevelMonotone(x: real, y: real)
    requires x <= y
    ensures Rank(Level(x)) <= Rank(Level(y))
  {
  }

  /** The thresholds are strict: exactly 50, 35 and 25 fall in the lower class. */
  lemma LevelThresholds()
    ensures Level(50.0) == "MODERATE-HIGH" && Level(50.5) == "HIGH"
    ensures Level(35.0) == "MODERATE" && Level(25.0) == "LOW-MODERATE"
    ensures forall x :: x > 50.0 <==> Level(x) == "HIGH"
    ensures forall x :: 25.0 < x <= 35.0 <==> Level(x) == "MODERATE"
  {
  }

  /** A missing or unparsable decline counts as 50%, "MODERATE-HIGH". */
  lemma MissingDeclineLevel(stress: Obj)
    requires "worst_case_scenario" !in stress
    ensures AssessOverallRisk(stress) == Success("MODERATE-HIGH")
  {
    assert Get2(stress, "worst_case_scenario", "portfolio_decline", JStr("-50%")) == Success(JStr("-50%"));
    DefaultDecline();
  }

  lemma UnparsableDeclineLevel(stress: Obj, text: string)
    requires stress == map["worst_case_scenario" := JObj(map["portfolio_decline" := JStr(text)])]
    requires ParseDecimal(RemoveChar(RemoveChar(text, '%'), '-')).None?
    ensures AssessOverallRisk(stress) == Success("MODERATE-HIGH")
  {
    assert Get2(stress, "worst_case_scenario", "portfolio_decline", JStr("-50%")) == Success(JStr(text));
  }

  /** A decline that is not a string has no `.replace` and also counts as 50%. */
  lemma NonStringDeclineLevel(stress: Obj, worst: Json)
    requires stress == map["worst_case_scenario" := JObj(map["portfolio_decline" := worst])]
    requires !worst.JStr?
    ensures AssessOverallRisk(stress) == Success("MODERATE-HIGH")
  {
    assert Get2(stress, "worst_case_scenario", "portfolio_decline", JStr("-50%")) == Success(worst);
  }

  lemma DefaultDecline()
    ensures DeclinePercent(JStr("-50%")) == 50.0
  {
    FiftyPercentText();
    assert DigitsValue("50") == 50 by { assert "50"[..1] == "5" && "5"[..0] == ""; }
    ParseDigits("50");
  }

  lemma FiftyPercentText()
    ensures RemoveChar(RemoveChar("-50%", '%'), '-') == "50"
  {
    StripSigns("50");
    assert "-" + "50" + "%" == "-50%";
  }

  /** A decline written "-d%" (whole percent) is classified by `d`. */
  lemma DeclineDigits(d: string)
    requires d != [] && AllDigits(d)
    ensures DeclinePercent(JStr("-" + d + "%")) == DigitsValue(d) as real
  {
    assert RemoveChar(RemoveChar("-" + d + "%", '%'), '-') == d by { StripSigns(d); }
    ParseDigits(d);
  }

  lemma StripSigns(d: string)
    requires AllDigits(d)
    ensures RemoveChar(RemoveChar("-" + d + "%", '%'), '-') == d
  {
    RemoveCharConcat("-" + d, "%", '%');
    assert RemoveChar("%", '%') == "" by { assert "%"[1..] == ""; }
    RemoveCharConcat("-", d, '%');
    RemoveCharAbsent("-", '%');
    RemoveCharAbsent(d, '%');
    assert RemoveChar("-" + d + "%", '%') == "-" + d;
    RemoveCharConcat("-", d, '-');
    assert RemoveChar("-", '-') == "" by { assert "-"[1..] == ""; }
    RemoveCharAbsent(d, '-');
    assert "" + d == d;
  }

  /** Flag order: at most two stress flags, then the diversification flag, then
      the VaR flag; hence at most four and the final `[:5]` drops nothing. */
  lemma FlagsShape(s: Slots)
    requires Flags(s).Success?
    ensures var f := Flags(s).value;
      && TopItems(s.stress, "risk_flags", 2).Success?
      && DiversificationFlags(s.corr).Success? && VarFlags(s.valueAtRisk).Success?
      && f == TopItems(s.stress, "risk_flags", 2).value + DiversificationFlags(s.corr).value
              + VarFlags(s.valueAtRisk).value
      && |f| <= 4
      && f[..Min(5, |f|)] == f
  {
  }

  /** Flags from a stress result with a flag list are its first two flags. */
  lemma StressFlagsFirst(stress: Obj, items: seq<Json>)
    requires "risk_flags" in stress && stress["risk_flags"] == JArr(items) && items != []
    ensures TopItems(stress, "risk_flags", 2) == Success(items[..Min(2, |items|)])
  {
  }

  /** An empty correlation result (a core run) never adds the diversification
      flag; a non-empty one without a score uses "5/10" and adds it. */
  lemma DiversificationRule(corr: Obj)
    ensures corr == map[] ==> DiversificationFlags(corr) == Success([])
    ensures corr != map[] && "diversification_assessment" !in corr ==>
              DiversificationFlags(corr) == Success([JStr(DiversificationFlag)])
  {
    if corr != map[] && "diversification_assessment" !in corr {
      assert StartsWith("5/10", "5");
    }
  }

  /** A VaR percent that is not a string or does not parse adds no flag. */
  lemma UnparsableVarNoFlag(p: Json)
    requires !p.JStr? || ParseDecimal(RemoveChar(p.s, '%')).None?
    ensures !HighVar(p)
  {
  }

  /** The VaR flag quotes the percent as written. */
  lemma VarFlagText(valueAtRisk: Obj, p: string)
    requires valueAtRisk == map["var_metrics" := JObj(map["daily_var_95" := JObj(map["percent" := JStr(p)])])]
    requires HighVar(JStr(p))
    ensures VarFlags(valueAtRisk) == Success([JStr("High daily VaR of " + p)])
  {
  }

  /** Recommendations: duplicate-free, drawn from the sources, covering every
      source key, and never more than five; since at most five sources exist,
      the final `[:5]` drops nothing. */
  lemma RecommendationsProperties(s: Slots)
    requires Recommendations(s).Success?
    ensures RecommendationSources(s).Success?
    ensures var recs := RecommendationSources(s).value;
      var r := Recommendations(s).value;
      && |recs| <= 5
      && |r| <= 5
      && r == Distinct(recs)
      && (forall i, j :: 0 <= i < j < |r| ==> r[i] != r[j])
      && (forall k :: 0 <= k < |r| ==> r[k] in recs)
      && KeysOf(r) == KeysOf(recs)
  {
    var recs := RecommendationSources(s).value;
    var d := Distinct(recs);
    assert d[..Min(5, |d|)] == d;
    forall i, j | 0 <= i < j < |d| ensures d[i] != d[j] {
      assert Key(d[i]) != Key(d[j]);
    }
  }

  /** The sources are the stress, VaR and (when present) correlation prefixes,
      in that order. */
  lemma RecommendationSourcesShape(s: Slots)
    requires RecommendationSources(s).Success?
    ensures var a := TopItems(s.stress, "recommendations", 2);
      var b := TopItems(s.valueAtRisk, "recommendations", 1);
      var c := TopItems(s.corr, "recommendations", 2);
      && a.Success? && b.Success?
      && (s.corr == map[] ==> RecommendationSources(s).value == a.value + b.value)
      && (s.corr != map[] ==> c.Success? && RecommendationSources(s).value == a.value + b.value + c.value)
  {
    if s.corr == map[] {
      assert TopItems(s.stress, "recommendations", 2).value + TopItems(s.valueAtRisk, "recommendations", 1).value + []
             == TopItems(s.stress, "recommendations", 2).value + TopItems(s.valueAtRisk, "recommendations", 1).value;
    }
  }

  /** Every agent failing still gives a report: each slot is its error record,
      the risk level is the default "MODERATE-HIGH", there are no
      recommendations, and the only flag is the diversification flag that a
      failed correlation agent's record triggers through the "5/10" default. */
  lemma AllFailedStillReported(positions: seq<Json>, value: real, runFull: bool,
                               outcomes: seq<Result<Obj, string>>, money: real -> string)
    requires |outcomes| == if runFull then 4 else 2
    requires forall k :: 0 <= k < |outcomes| ==> outcomes[k].Failure?
    ensures var r := Report(positions, value, runFull, outcomes, money);
      && r.Success?
      && r.value.stressTests == map["_error" := JStr(outcomes[0].error)]
      && r.value.valueAtRisk == map["_error" := JStr(outcomes[1].error)]
      && r.value.summary == RiskSummary(JStr("N/A"), JStr("N/A"), JStr("N/A"), JStr("N/A"), "MODERATE-HIGH")
      && r.value.recommendations == []
      && r.value.riskFlags == (if runFull then [JStr(DiversificationFlag)] else [])
  {
    var s := SlotsOf(runFull, outcomes);
    assert runFull ==> "_error" in s.corr;
    SilentAgentsSummary(s);
    SilentAgentsFlags(s);
    SilentAgentsRecommendations(s);
  }

  /** Agents whose results hold none of the keys read give an all-"N/A"
      summary at the default level. */
  lemma SilentAgentsSummary(s: Slots)
    requires "worst_case_scenario" !in s.stress && "var_metrics" !in s.valueAtRisk
    requires "outcome_probabilities" !in s.mc && "portfolio_summary" !in s.corr
    ensures Summary(s) == Success(RiskSummary(JStr("N/A"), JStr("N/A"), JStr("N/A"), JStr("N/A"), "MODERATE-HIGH"))
  {
    MissingDeclineLevel(s.stress);
  }

  lemma SilentAgentsFlags(s: Slots)
    requires "risk_flags" !in s.stress && "var_metrics" !in s.valueAtRisk
    requires "diversification_assessment" !in s.corr
    ensures Flags(s) == Success(if s.corr != map[] then [JStr(DiversificationFlag)] else [])
  {
    var none: seq<Json> := [];
    var flag: seq<Json> := if s.corr != map[] then [JStr(DiversificationFlag)] else [];
    assert !Truthy(Lookup(s.stress, "risk_flags", JNull));
    DiversificationRule(s.corr);
    SilentVar(s.valueAtRisk);
    ExtendAroundEmpty(flag);
  }

  lemma ExtendAroundEmpty(flag: seq<Json>)
    ensures Extend(Extend(Success([]), Success(flag)), Success([])) == Success(flag)
  {
    var none: seq<Json> := [];
    assert none + flag + none == flag;
  }

  /** Without VaR metrics the percent defaults to "0%", which is not high. */
  lemma SilentVar(valueAtRisk: Obj)
    requires "var_metrics" !in valueAtRisk
    ensures VarFlags(valueAtRisk) == Success([])
  {
    assert Get3(valueAtRisk, "var_metrics", "daily_var_95", "percent", JStr("0%")) == Success(JStr("0%"));
    assert !HighVar(JStr("0%")) by { ZeroPercent(); }
  }

  lemma SilentAgentsRecommendations(s: Slots)
    requires "recommendations" !in s.stress && "recommendations" !in s.valueAtRisk
    requires "recommendations" !in s.corr
    ensures Recommendations(s) == Success([])
  {
    var none: seq<Json> := [];
    assert none + none + none == none;
    assert RecommendationSources(s) == Success(none);
    assert Distinct(none) == none;
  }

  lemma ZeroPercent()
    ensures ParseDecimal(RemoveChar("0%", '%')) == Some(0.0)
  {
    assert "0%" == "0" + "%";
    RemoveCharConcat("0", "%", '%');
    RemoveCharAbsent("0", '%');
    assert RemoveChar("%", '%') == "" by { assert "%"[1..] == ""; }
    assert "0" + "" == "0";
    assert DigitsValue("0") == 0 by { assert "0"[..0] == ""; }
    ParseDigits("0");
  }

  /** A core run reports `None` for Monte Carlo and correlations and "N/A" for
      the probability of loss and effective positions; every run counts its
      positions and keeps the stress and VaR slots in order. */
  lemma ReportSlots(positions: seq<Json>, value: real, runFull: bool,
                    outcomes: seq<Result<Obj, string>>, money: real -> string)
    requires |outcomes| == if runFull then 4 else 2
    requires Report(positions, value, runFull, outcomes, money).Success?
    ensures var r := Report(positions, value, runFull, outcomes, money).value;
      && r.positionsCount == |positions|
      && r.stressTests == BaseAgent.Settled(outcomes[0])
      && r.valueAtRisk == BaseAgent.Settled(outcomes[1])
      && (runFull ==> r.monteCarlo == Some(BaseAgent.Settled(outcomes[2]))
                      && r.correlations == Some(BaseAgent.Settled(outcomes[3])))
      && (!runFull ==> r.monteCarlo.None? && r.correlations.None?
                       && r.summary.probabilityOfLoss == JStr("N/A")
                       && r.summary.effectivePositions == JStr("N/A"))
  {
  }
}
