/** Stock-universe discovery (backend/orchestrator/pipelines/scout_pipeline.py):
    which scouts run, how their results are aggregated and tagged, how stocks
    are deduplicated by ticker, and the statistics of the final result.  The
    scouts' outcomes (what `asyncio.gather` delivers) are an input, in task
    order; the screener is a function of the context it is given.  `themes`
    and `mandate` are whatever JSON the caller passes. */
module ScoutPipeline {
  import opened Wrappers
  import opened Text
  import opened JsonValues

  const EmergingLeaders := "Emerging Leaders"
  const SmartMoney := "Smart Money"
  const DisruptionScout := "Disruption"

  /** `f"Thematic ({theme})"`, with the theme already turned into text. */
  function ThematicName(theme: string): (r: string)
    ensures |r| == |theme| + 11
    ensures r[..10] == "Thematic (" && r[|r| - 1] == ')'
  {
    "Thematic (" + theme + ")"
  }

  /** `(mandate or "").lower()`: a falsy mandate reads as the empty string; a
      truthy one that is not a string has no `lower` and raises. */
  function MandateText(mandate: Json): (r: Result<string, string>)
    ensures r.Success? <==> !Truthy(mandate) || mandate.JStr?
    ensures r.Success? && mandate.JStr? ==> r.value == Lower(mandate.s)
    ensures r.Success? && !mandate.JStr? ==> r.value == ""
  {
    if !Truthy(mandate) then Success("")
    else if mandate.JStr? then Success(Lower(mandate.s))
    else Failure("AttributeError: object has no attribute 'lower'")
  }

  /** Whether the disruption scout runs: `run_all_scouts` short-circuits, so the
      mandate is only looked at when it is false. */
  function RunsDisruption(mandate: Json, runAll: bool): (r: Result<bool, string>)
    ensures runAll ==> r == Success(true)
    ensures !runAll ==> (r.Success? <==> !Truthy(mandate) || mandate.JStr?)
    ensures !runAll && r.Success? ==>
              (r.value <==> mandate.JStr? && (Contains(Lower(mandate.s), "growth")
                                              || Contains(Lower(mandate.s), "disruption")))
  {
    if runAll then Success(true)
    else
      match MandateText(mandate)
      case Failure(e) => Failure(e)
      case Success(m) => Success(Contains(m, "growth") || Contains(m, "disruption"))
  }

  /** `themes = themes or []`: the value the scouts and the screener see. */
  function ThemesArg(themes: Json): (r: Json)
    ensures Truthy(themes) ==> r == themes
    ensures !Truthy(themes) ==> r == JArr([])
  {
    if Truthy(themes) then themes else JArr([])
  }

  /** What `for theme in themes` visits after `themes or []`: a list's items, a
      string's characters, nothing for a falsy value; any other value raises. */
  function ThemeItems(themes: Json): (r: Result<seq<Json>, string>)
    ensures r.Success? <==> !Truthy(themes) || themes.JArr? || themes.JStr?
    ensures !Truthy(themes) ==> r == Success([])
    ensures themes.JArr? ==> r == Success(themes.items)
    ensures themes.JStr? ==> r == Success(Chars(themes.s))
  {
    Iterate(ThemesArg(themes))
  }

  /** One thematic scout per visited theme, named by the theme's `str`. */
  function ThematicNames(themes: seq<Json>, repr: Json -> string): (r: seq<string>)
    ensures |r| == |themes|
    ensures forall k :: 0 <= k < |themes| ==> r[k] == ThematicName(PyStr(themes[k], repr))
  {
    seq(|themes|, k requires 0 <= k < |themes| => ThematicName(PyStr(themes[k], repr)))
  }

  /** The names of the scout tasks, in the order they are created, once the
      disruption test and the themes are known. */
  function ScoutNames(themes: seq<Json>, disruption: bool, repr: Json -> string): (r: seq<string>)
    ensures |r| == 2 + (if disruption then 1 else 0) + |themes|
    ensures r[0] == EmergingLeaders && r[1] == SmartMoney
  {
    [EmergingLeaders, SmartMoney]
      + (if disruption then [DisruptionScout] else [])
      + ThematicNames(themes, repr)
  }

  /** Step 1 of `discover`: the task list, or the error that building it raises. */
  function Plan(themes: Json, mandate: Json, runAll: bool, repr: Json -> string): Result<seq<string>, string> {
    match RunsDisruption(mandate, runAll)
    case Failure(e) => Failure(e)
    case Success(d) =>
      match ThemeItems(themes)
      case Failure(e) => Failure(e)
      case Success(ts) => Success(ScoutNames(ts, d, repr))
  }

  /** Step 1 of `discover`: building the task list by appends. */
  method PlanScouts(themes: Json, mandate: Json, runAll: bool, repr: Json -> string)
    returns (r: Result<seq<string>, string>)
    ensures r == Plan(themes, mandate, runAll, repr)
  {
    var names := [EmergingLeaders];
    names := names + [SmartMoney];
    var disruption := TestDisruption(mandate, runAll);
    if disruption.Failure? {
      return Failure(disruption.error);
    }
    if disruption.value {
      names := names + [DisruptionScout];
    }
    assert names == [EmergingLeaders, SmartMoney] + (if disruption.value then [DisruptionScout] else []);
    var items := ThemeItems(themes);
    if items.Failure? {
      return Failure(items.error);
    }
    names := AddThematicScouts(names, items.value, repr);
    PlanShape(themes, mandate, runAll, repr);
    r := Success(names);
  }

  /** The condition `run_all_scouts or "growth" in (mandate or "").lower() or …`. */
  method TestDisruption(mandate: Json, runAll: bool) returns (r: Result<bool, string>)
    ensures r == RunsDisruption(mandate, runAll)
  {
    if runAll {
      return Success(true);
    }
    var m := MandateText(mandate);
    if m.Failure? {
      return Failure(m.error);
    }
    r := Success(Contains(m.value, "growth") || Contains(m.value, "disruption"));
  }

  /** The loop `for theme in themes: scout_tasks.append(...)`. */
  method AddThematicScouts(tasks: seq<string>, themes: seq<Json>, repr: Json -> string)
    returns (names: seq<string>)
    ensures names == tasks + ThematicNames(themes, repr)
  {
    names := tasks;
    for i := 0 to |themes|
      invariant names == tasks + ThematicNames(themes[..i], repr)
    {
      assert themes[..i + 1] == themes[..i] + [themes[i]];
      names := names + [ThematicName(PyStr(themes[i], repr))];
    }
    assert themes[..|themes|] == themes;
  }

  /** Emerging Leaders and Smart Money always run, first; Disruption runs iff the
      mandate rule holds; then one thematic scout per theme, in order. */
  lemma ScoutSelection(themes: seq<Json>, disruption: bool, repr: Json -> string)
    ensures var names := ScoutNames(themes, disruption, repr);
      var d := if disruption then 1 else 0;
      && |names| == 2 + d + |themes|
      && names[0] == EmergingLeaders && names[1] == SmartMoney
      && (DisruptionScout in names <==> disruption)
      && forall k :: 0 <= k < |themes| ==> names[2 + d + k] == ThematicName(PyStr(themes[k], repr))
  {
    var names := ScoutNames(themes, disruption, repr);
    var fixed := [EmergingLeaders, SmartMoney] + (if disruption then [DisruptionScout] else []);
    var t := ThematicNames(themes, repr);
    assert names == fixed + t;
    forall k | 0 <= k < |names| && k != 2 ensures names[k] != DisruptionScout {
      if k >= |fixed| {
        var j := k - |fixed|;
        assert names[k] == t[j];
        assert t[j][..10] == "Thematic (";
        assert t[j][0] == 'T';
      }
    }
  }

  /** Building the task list fails exactly when the mandate is looked at and is
      a truthy non-string, or when the themes are neither falsy, a list nor a
      string; otherwise it is the scout selection for the visited themes. */
  lemma PlanOutcome(themes: Json, mandate: Json, runAll: bool, repr: Json -> string)
    ensures Plan(themes, mandate, runAll, repr).Success? <==>
              (runAll || !Truthy(mandate) || mandate.JStr?)
              && (!Truthy(themes) || themes.JArr? || themes.JStr?)
    ensures Plan(themes, mandate, runAll, repr).Success? ==>
              Plan(themes, mandate, runAll, repr).value
              == ScoutNames(ThemeItems(themes).value, RunsDisruption(mandate, runAll).value, repr)
  {
  }

  /** A task list that can be built: the fixed scouts, then the thematic ones. */
  lemma PlanShape(themes: Json, mandate: Json, runAll: bool, repr: Json -> string)
    requires RunsDisruption(mandate, runAll).Success? && ThemeItems(themes).Success?
    ensures var d := RunsDisruption(mandate, runAll).value;
      var ts := ThemeItems(themes).value;
      var fixed := [EmergingLeaders, SmartMoney] + (if d then [DisruptionScout] else []);
      Plan(themes, mandate, runAll, repr) == Success(fixed + ThematicNames(ts, repr))
  {
  }

  /** A list of string themes gives one "Thematic (theme)" scout per theme. */
  lemma StringThemes(items: seq<Json>, mandate: Json, runAll: bool, repr: Json -> string)
    requires forall k :: 0 <= k < |items| ==> items[k].JStr?
    requires RunsDisruption(mandate, runAll).Success?
    ensures Plan(JArr(items), mandate, runAll, repr).Success?
    ensures var names := Plan(JArr(items), mandate, runAll, repr).value;
      var d := if RunsDisruption(mandate, runAll).value then 1 else 0;
      && |names| == 2 + d + |items|
      && forall k :: 0 <= k < |items| ==> names[2 + d + k] == ThematicName(items[k].s)
  {
    assert ThemeItems(JArr(items)) == Success(items);
    PlanShape(JArr(items), mandate, runAll, repr);
    var t := ThematicNames(items, repr);
    forall k | 0 <= k < |items| ensures t[k] == ThematicName(items[k].s) {
      assert PyStr(items[k], repr) == items[k].s;
    }
  }

  /** A string passed as `themes` is iterated character by character: "AI" runs
      the scouts "Thematic (A)" and "Thematic (I)". */
  lemma StringThemesByCharacter(s: string, mandate: Json, runAll: bool, repr: Json -> string)
    requires RunsDisruption(mandate, runAll).Success?
    ensures Plan(JStr(s), mandate, runAll, repr).Success?
    ensures var names := Plan(JStr(s), mandate, runAll, repr).value;
      var d := if RunsDisruption(mandate, runAll).value then 1 else 0;
      && |names| == 2 + d + |s|
      && forall k :: 0 <= k < |s| ==> names[2 + d + k] == ThematicName([s[k]])
  {
    var cs := Chars(s);
    assert ThemeItems(JStr(s)) == Success(cs);
    PlanShape(JStr(s), mandate, runAll, repr);
    var t := ThematicNames(cs, repr);
    forall k | 0 <= k < |s| ensures t[k] == ThematicName([s[k]]) {
      assert PyStr(cs[k], repr) == [s[k]];
    }
  }

  /** A theme that is not a string is named by its `str`: the number 5 gives
      "Thematic (" + repr(5) + ")", `None` gives "Thematic (None)". */
  lemma NonStringThemeName(t: Json, mandate: Json, runAll: bool, repr: Json -> string)
    requires RunsDisruption(mandate, runAll).Success?
    ensures Plan(JArr([t]), mandate, runAll, repr).Success?
    ensures var names := Plan(JArr([t]), mandate, runAll, repr).value;
      && names[|names| - 1] == ThematicName(PyStr(t, repr))
      && (t.JNum? ==> names[|names| - 1] == "Thematic (" + repr(t) + ")")
      && (t.JNull? ==> names[|names| - 1] == "Thematic (None)")
  {
    assert ThemeItems(JArr([t])) == Success([t]);
    PlanShape(JArr([t]), mandate, runAll, repr);
    assert ThematicNames([t], repr) == [ThematicName(PyStr(t, repr))];
  }

  /** `_run_scout`: a scout's outcome with `_scout_name` set to the scout's name.
      Scouts take the search path, so a successful outcome is a dict. */
  function RunScout(name: string, outcome: Result<Obj, string>): (r: Result<Obj, string>)
    ensures r.Success? <==> outcome.Success?
    ensures r.Success? ==> "_scout_name" in r.value && r.value["_scout_name"] == JStr(name)
    ensures r.Success? ==> forall k :: k in outcome.value && k != "_scout_name" ==>
              k in r.value && r.value[k] == outcome.value[k]
    ensures r.Failure? ==> r.error == outcome.error
  {
    match outcome
    case Success(o) => Success(o["_scout_name" := JStr(name)])
    case Failure(e) => Failure(e)
  }

  /** The gathered branch results of `discover`. */
  function Tagged(names: seq<string>, outcomes: seq<Result<Obj, string>>): (r: seq<Result<Obj, string>>)
    requires |names| == |outcomes|
    ensures |r| == |outcomes|
  {
    seq(|outcomes|, i requires 0 <= i < |outcomes| => RunScout(names[i], outcomes[i]))
  }

  // ---------------------------------------------------------------------
  // Step 3: aggregation

  /** A scout's stock list as the aggregation loop uses it: `len(stocks)` needs a
      sized value and `stock["_source"] = …` needs every element to be a dict, so
      only a list of dicts (or an empty string or dict) gets through. */
  function StockList(stocks: Json): (r: Result<seq<Obj>, string>)
    ensures r.Success? <==>
              (stocks.JArr? && forall k :: 0 <= k < |stocks.items| ==> stocks.items[k].JObj?)
              || stocks == JStr("") || stocks == EmptyObj
    ensures r.Success? && stocks.JArr? ==>
              |r.value| == |stocks.items|
              && forall k :: 0 <= k < |r.value| ==> stocks.items[k] == JObj(r.value[k])
    ensures r.Success? && !stocks.JArr? ==> r.value == []
  {
    match stocks
    case JArr(items) => AllObjects(items)
    case JStr(s) => if s == "" then Success([]) else Failure("TypeError: 'str' object does not support item assignment")
    case JObj(m) => if m == map[] then Success([]) else Failure("TypeError: 'str' object does not support item assignment")
    case _ => Failure("TypeError: object has no len()")
  }

  /** `result.get("_scout_name", f"Scout {i}")`. */
  function ScoutName(i: nat, result: Obj): Json {
    Lookup(result, "_scout_name", JStr("Scout " + NatToString(i)))
  }

  /** The stocks of one scout, each with `_source` set to the scout's name. */
  function Stamp(stocks: seq<Obj>, name: Json): (r: seq<Obj>)
    ensures |r| == |stocks|
    ensures forall k :: 0 <= k < |r| ==> r[k] == stocks[k]["_source" := name]
  {
    seq(|stocks|, k requires 0 <= k < |stocks| => stocks[k]["_source" := name])
  }

  /** One entry of `scout_summaries`. */
  datatype ScoutSummary = ScoutSummary(name: Json, count: nat, summary: Json)

  /** `all_stocks` and `scout_summaries`. */
  datatype Aggregate = Aggregate(stocks: seq<Obj>, summaries: seq<ScoutSummary>)

  /** The aggregation loop after its first `n` iterations: a failed branch is
      skipped, a successful one contributes a summary and its stamped stocks. */
  function Aggregated(results: seq<Result<Obj, string>>, n: nat): (r: Result<Aggregate, string>)
    requires n <= |results|
    ensures r.Success? ==> |r.value.summaries| <= n
  {
    if n == 0 then Success(Aggregate([], []))
    else
      match Aggregated(results, n - 1)
      case Failure(e) => Failure(e)
      case Success(acc) =>
        match results[n - 1]
        case Failure(_) => Success(acc)
        case Success(result) =>
          var name := ScoutName(n - 1, result);
          match StockList(Lookup(result, "stocks", JArr([])))
          case Failure(e) => Failure(e)
          case Success(list) =>
            Success(Aggregate(acc.stocks + Stamp(list, name),
                              acc.summaries + [ScoutSummary(name, |list|, Lookup(result, "summary", JStr("")))]))
  }

  /** Step 3 of `discover`. */
  method AggregateResults(results: seq<Result<Obj, string>>) returns (r: Result<Aggregate, string>)
    ensures r == Aggregated(results, |results|)
  {
    var allStocks: seq<Obj> := [];
    var summaries: seq<ScoutSummary> := [];
    for i := 0 to |results|
      invariant Aggregated(results, i) == Success(Aggregate(allStocks, summaries))
    {
      if results[i].Failure? {
        continue;
      }
      var result := results[i].value;
      var name := ScoutName(i, result);
      var stocks := StockList(Lookup(result, "stocks", JArr([])));
      if stocks.Failure? {
        AggregatedFailureSticks(results, i + 1, |results|);
        return Failure(stocks.error);
      }
      var list := stocks.value;
      summaries := summaries + [ScoutSummary(name, |list|, Lookup(result, "summary", JStr("")))];
      allStocks := StampAll(allStocks, list, name);
    }
    return Success(Aggregate(allStocks, summaries));
  }

  /** The inner loop: `stock["_source"] = …; all_stocks.append(stock)`. */
  method StampAll(before: seq<Obj>, list: seq<Obj>, name: Json) returns (allStocks: seq<Obj>)
    ensures allStocks == before + Stamp(list, name)
  {
    allStocks := before;
    for j := 0 to |list|
      invariant allStocks == before + Stamp(list[..j], name)
    {
      allStocks := allStocks + [list[j]["_source" := name]];
    }
    assert list[..|list|] == list;
  }

  /** Once the aggregation loop has raised, the result is that exception. */
  lemma {:induction false} AggregatedFailureSticks(results: seq<Result<Obj, string>>, n: nat, m: nat)
    requires n <= m <= |results| && Aggregated(results, n).Failure?
    ensures Aggregated(results, m) == Aggregated(results, n)
    decreases m
  {
    if m > n {
      AggregatedFailureSticks(results, n, m - 1);
    }
  }

  function SumCounts(summaries: seq<ScoutSummary>): nat {
    if summaries == [] then 0
    else SumCounts(summaries[..|summaries| - 1]) + summaries[|summaries| - 1].count
  }

  function SummaryNames(summaries: seq<ScoutSummary>): (r: seq<Json>)
    ensures |r| == |summaries|
    ensures forall k :: 0 <= k < |r| ==> r[k] == summaries[k].name
  {
    seq(|summaries|, k requires 0 <= k < |summaries| => summaries[k].name)
  }

  /** `total_discovered` is the sum of the successful scouts' stock counts. */
  lemma {:induction false} TotalIsSumOfCounts(results: seq<Result<Obj, string>>, n: nat)
    requires n <= |results| && Aggregated(results, n).Success?
    ensures |Aggregated(results, n).value.stocks| == SumCounts(Aggregated(results, n).value.summaries)
  {
    if n > 0 {
      TotalIsSumOfCounts(results, n - 1);
      var acc := Aggregated(results, n - 1).value;
      var a := Aggregated(results, n).value;
      if results[n - 1].Success? {
        assert a.summaries[..|a.summaries| - 1] == acc.summaries;
      }
    }
  }

  /** Every aggregated stock carries `_source`, and its value is the name of a
      scout that contributed a summary. */
  lemma {:induction false} EveryStockHasSource(results: seq<Result<Obj, string>>, n: nat)
    requires n <= |results| && Aggregated(results, n).Success?
    ensures var a := Aggregated(results, n).value;
      forall k :: 0 <= k < |a.stocks| ==>
        "_source" in a.stocks[k] && a.stocks[k]["_source"] in SummaryNames(a.summaries)
  {
    if n > 0 {
      EveryStockHasSource(results, n - 1);
      var acc := Aggregated(results, n - 1).value;
      var a := Aggregated(results, n).value;
      if results[n - 1].Success? {
        var name := ScoutName(n - 1, results[n - 1].value);
        assert SummaryNames(a.summaries) == SummaryNames(acc.summaries) + [name];
        forall k | 0 <= k < |a.stocks|
          ensures "_source" in a.stocks[k] && a.stocks[k]["_source"] in SummaryNames(a.summaries)
        {
          if k < |acc.stocks| {
            assert a.stocks[k] == acc.stocks[k];
          } else {
            assert a.stocks[k]["_source"] == name;
          }
        }
      }
    }
  }

  /** The names of the scouts whose outcome succeeded, in task order. */
  function SucceededNames(names: seq<string>, outcomes: seq<Result<Obj, string>>): seq<Json>
    requires |names| == |outcomes|
  {
    if outcomes == [] then []
    else
      var n := |outcomes| - 1;
      SucceededNames(names[..n], outcomes[..n]) + (if outcomes[n].Success? then [JStr(names[n])] else [])
  }

  /** A failed scout contributes no summary; the successful ones appear in task
      order, each under its own name. */
  lemma {:induction false} SummariesOfSucceeded(names: seq<string>, outcomes: seq<Result<Obj, string>>, n: nat)
    requires |names| == |outcomes| && n <= |outcomes|
    requires Aggregated(Tagged(names, outcomes), n).Success?
    ensures SummaryNames(Aggregated(Tagged(names, outcomes), n).value.summaries)
            == SucceededNames(names[..n], outcomes[..n])
  {
    var results := Tagged(names, outcomes);
    if n > 0 {
      SummariesOfSucceeded(names, outcomes, n - 1);
      assert names[..n][..n - 1] == names[..n - 1];
      assert outcomes[..n][..n - 1] == outcomes[..n - 1];
      if outcomes[n - 1].Success? {
        assert ScoutName(n - 1, results[n - 1].value) == JStr(names[n - 1]);
      }
    }
  }

  // ---------------------------------------------------------------------
  // Step 4: deduplication by ticker

  /** `stock.get("ticker", "")`. */
  function Ticker(s: Obj): Json {
    Lookup(s, "ticker", JStr(""))
  }

  predicate AllHashable(stocks: seq<Obj>) {
    forall k :: 0 <= k < |stocks| ==> Hashable(Ticker(stocks[k]))
  }

  /** `seen_tickers` after a prefix: the keys of its truthy tickers. */
  function SeenKeys(stocks: seq<Obj>): (r: set<Json>)
    ensures forall key :: key in r ==> Truthy(key)
  {
    if stocks == [] then {}
    else
      var t := Ticker(stocks[|stocks| - 1]);
      SeenKeys(stocks[..|stocks| - 1]) + (if Truthy(t) then {Key(t)} else {})
  }

  /** How many stocks have a ticker equal to `key`. */
  function Occurrences(stocks: seq<Obj>, key: Json): nat {
    if stocks == [] then 0
    else
      Occurrences(stocks[..|stocks| - 1], key)
        + (if Key(Ticker(stocks[|stocks| - 1])) == key then 1 else 0)
  }

  /** The positions of the first stock of each truthy ticker, in order. */
  function FirstIndices(stocks: seq<Obj>): (r: seq<nat>)
    ensures forall k :: 0 <= k < |r| ==> r[k] < |stocks|
  {
    if stocks == [] then []
    else
      var n := |stocks| - 1;
      var t := Ticker(stocks[n]);
      FirstIndices(stocks[..n]) + (if Truthy(t) && Key(t) !in SeenKeys(stocks[..n]) then [n] else [])
  }

  /** `s["_multi_scout"] = True` when `multi`. */
  function Mark(s: Obj, multi: bool): Obj {
    if multi then s["_multi_scout" := JBool(true)] else s
  }

  /** The unique list: the first stock of each truthy ticker, marked when its
      ticker occurs more than once. */
  function Unique(stocks: seq<Obj>): (r: seq<Obj>)
    ensures |r| == |FirstIndices(stocks)|
  {
    var first := FirstIndices(stocks);
    seq(|first|, k requires 0 <= k < |first| =>
      Mark(stocks[first[k]], Occurrences(stocks, Key(Ticker(stocks[first[k]]))) >= 2))
  }

  /** Step 4 of `discover`: the `in`/`not in` tests raise `TypeError` on an
      unhashable ticker. */
  function Dedup(stocks: seq<Obj>): (r: Result<seq<Obj>, string>)
    ensures r.Success? <==> AllHashable(stocks)
    ensures r.Success? ==> |r.value| <= |stocks|
  {
    UniqueAtMostTotal(stocks);
    if AllHashable(stocks) then Success(Unique(stocks)) else Failure("TypeError: unhashable type")
  }

  lemma SeenKeysSnoc(p: seq<Obj>, s: Obj)
    ensures SeenKeys(p + [s]) == SeenKeys(p) + (if Truthy(Ticker(s)) then {Key(Ticker(s))} else {})
  {
    assert (p + [s])[..|p|] == p;
  }

  lemma FirstIndicesSnoc(p: seq<Obj>, s: Obj)
    ensures FirstIndices(p + [s]) ==
              FirstIndices(p) + (if Truthy(Ticker(s)) && Key(Ticker(s)) !in SeenKeys(p) then [|p|] else [])
  {
    assert (p + [s])[..|p|] == p;
  }

  lemma OccurrencesSnoc(p: seq<Obj>, s: Obj, key: Json)
    ensures Occurrences(p + [s], key) == Occurrences(p, key) + (if Key(Ticker(s)) == key then 1 else 0)
  {
    assert (p + [s])[..|p|] == p;
  }

  /** The first stocks have truthy tickers, all already seen. */
  lemma {:induction false} FirstKeysSeen(p: seq<Obj>)
    ensures var first := FirstIndices(p);
      forall k :: 0 <= k < |first| ==>
        Truthy(Ticker(p[first[k]])) && Key(Ticker(p[first[k]])) in SeenKeys(p)
  {
    if p != [] {
      var n := |p| - 1;
      FirstKeysSeen(p[..n]);
      FirstIndicesSnoc(p[..n], p[n]);
      SeenKeysSnoc(p[..n], p[n]);
      assert p[..n] + [p[n]] == p;
    }
  }

  /** The first stocks have pairwise different tickers. */
  lemma {:induction false} FirstKeysDistinct(p: seq<Obj>)
    ensures var first := FirstIndices(p);
      forall a, b :: 0 <= a < b < |first| ==> Key(Ticker(p[first[a]])) != Key(Ticker(p[first[b]]))
  {
    if p != [] {
      var n := |p| - 1;
      FirstKeysDistinct(p[..n]);
      FirstKeysSeen(p[..n]);
      FirstIndicesSnoc(p[..n], p[n]);
      assert p[..n] + [p[n]] == p;
    }
  }

  /** Every seen ticker has its first stock in the unique list. */
  lemma {:induction false} FindFirst(p: seq<Obj>, key: Json) returns (j: nat)
    requires key in SeenKeys(p)
    ensures j < |FirstIndices(p)| && Key(Ticker(p[FirstIndices(p)[j]])) == key
  {
    var n := |p| - 1;
    FirstIndicesSnoc(p[..n], p[n]);
    SeenKeysSnoc(p[..n], p[n]);
    assert p[..n] + [p[n]] == p;
    if key in SeenKeys(p[..n]) {
      j := FindFirst(p[..n], key);
    } else {
      j := |FirstIndices(p[..n])|;
    }
  }

  /** A ticker that was never seen has not occurred. */
  lemma {:induction false} UnseenNotOccurred(p: seq<Obj>, key: Json)
    requires Truthy(key) && key !in SeenKeys(p)
    ensures Occurrences(p, key) == 0
  {
    if p != [] {
      var n := |p| - 1;
      SeenKeysSnoc(p[..n], p[n]);
      OccurrencesSnoc(p[..n], p[n], key);
      assert p[..n] + [p[n]] == p;
      UnseenNotOccurred(p[..n], key);
    }
  }

  /** A seen ticker has occurred. */
  lemma {:induction false} SeenOccurred(p: seq<Obj>, key: Json)
    requires key in SeenKeys(p)
    ensures Occurrences(p, key) >= 1
  {
    var n := |p| - 1;
    SeenKeysSnoc(p[..n], p[n]);
    OccurrencesSnoc(p[..n], p[n], key);
    assert p[..n] + [p[n]] == p;
    if key in SeenKeys(p[..n]) {
      SeenOccurred(p[..n], key);
    }
  }

  /** A new truthy ticker appends its stock, unmarked. */
  lemma UniqueSnocNew(p: seq<Obj>, s: Obj)
    requires Truthy(Ticker(s)) && Key(Ticker(s)) !in SeenKeys(p)
    ensures Unique(p + [s]) == Unique(p) + [s]
  {
    var q := p + [s];
    var first := FirstIndices(p);
    FirstIndicesSnoc(p, s);
    FirstKeysSeen(p);
    assert FirstIndices(q) == first + [|p|];
    forall k | 0 <= k < |first| ensures Unique(q)[k] == Unique(p)[k] {
      var e := p[first[k]];
      assert q[first[k]] == e;
      OccurrencesSnoc(p, s, Key(Ticker(e)));
    }
    UnseenNotOccurred(p, Key(Ticker(s)));
    OccurrencesSnoc(p, s, Key(Ticker(s)));
    assert Unique(q)[|first|] == s by { assert q[|p|] == s; }
  }

  /** A falsy ticker changes nothing. */
  lemma UniqueSnocSkip(p: seq<Obj>, s: Obj)
    requires !Truthy(Ticker(s))
    ensures Unique(p + [s]) == Unique(p)
  {
    var q := p + [s];
    var first := FirstIndices(p);
    FirstIndicesSnoc(p, s);
    FirstKeysSeen(p);
    assert FirstIndices(q) == first;
    forall k | 0 <= k < |first| ensures Unique(q)[k] == Unique(p)[k] {
      var e := p[first[k]];
      assert q[first[k]] == e;
      OccurrencesSnoc(p, s, Key(Ticker(e)));
    }
  }

  /** A repeated ticker marks the first unique stock that has it (the one the
      inner search stops at), and nothing else. */
  lemma UniqueSnocSeen(p: seq<Obj>, s: Obj) returns (j: nat)
    requires Key(Ticker(s)) in SeenKeys(p)
    ensures j < |Unique(p)|
    ensures Key(Lookup(Unique(p)[j], "ticker", JNull)) == Key(Ticker(s))
    ensures forall m :: 0 <= m < j ==> Key(Lookup(Unique(p)[m], "ticker", JNull)) != Key(Ticker(s))
    ensures Unique(p + [s]) == Unique(p)[j := Unique(p)[j]["_multi_scout" := JBool(true)]]
  {
    var q := p + [s];
    var key := Key(Ticker(s));
    var first := FirstIndices(p);
    j := FindFirst(p, key);
    FirstIndicesSnoc(p, s);
    FirstKeysDistinct(p);
    FirstKeysSeen(p);
    assert FirstIndices(q) == first;
    forall m | 0 <= m < |first|
      ensures Lookup(Unique(p)[m], "ticker", JNull) == Ticker(p[first[m]])
    {
    }
    SeenOccurred(p, key);
    forall k | 0 <= k < |first|
      ensures Unique(q)[k] == Unique(p)[j := Unique(p)[j]["_multi_scout" := JBool(true)]][k]
    {
      var e := p[first[k]];
      assert q[first[k]] == e;
      OccurrencesSnoc(p, s, Key(Ticker(e)));
    }
  }

  /** The inner search of step 4: mark the first unique stock whose ticker
      equals `ticker`, then stop. */
  method MarkFirst(unique: seq<Obj>, ticker: Json, ghost j0: nat) returns (u: seq<Obj>)
    requires j0 < |unique| && Key(Lookup(unique[j0], "ticker", JNull)) == Key(ticker)
    requires forall m :: 0 <= m < j0 ==> Key(Lookup(unique[m], "ticker", JNull)) != Key(ticker)
    ensures u == unique[j0 := unique[j0]["_multi_scout" := JBool(true)]]
  {
    u := unique;
    var j := 0;
    while j < |u|
      invariant j <= j0 && u == unique
    {
      if Key(Lookup(u[j], "ticker", JNull)) == Key(ticker) {
        u := u[j := u[j]["_multi_scout" := JBool(true)]];
        return;
      }
      j := j + 1;
    }
  }

  /** One iteration of the deduplication loop on a stock with a hashable ticker. */
  method DedupStep(seen: set<Json>, unique: seq<Obj>, stock: Obj, ghost p: seq<Obj>)
    returns (seen': set<Json>, unique': seq<Obj>)
    requires seen == SeenKeys(p) && unique == Unique(p)
    ensures seen' == SeenKeys(p + [stock]) && unique' == Unique(p + [stock])
  {
    var ticker := Ticker(stock);
    SeenKeysSnoc(p, stock);
    seen', unique' := seen, unique;
    if Truthy(ticker) && Key(ticker) !in seen {
      seen' := seen + {Key(ticker)};
      UniqueSnocNew(p, stock);
      unique' := unique + [stock];
    } else if Key(ticker) in seen {
      ghost var j0 := UniqueSnocSeen(p, stock);
      unique' := MarkFirst(unique, ticker, j0);
    } else {
      UniqueSnocSkip(p, stock);
    }
  }

  /** Step 4 of `discover`: the loop over `all_stocks` with the `seen_tickers` set. */
  method Deduplicate(stocks: seq<Obj>) returns (r: Result<seq<Obj>, string>)
    ensures r == Dedup(stocks)
  {
    var seen: set<Json> := {};
    var unique: seq<Obj> := [];
    for i := 0 to |stocks|
      invariant seen == SeenKeys(stocks[..i])
      invariant unique == Unique(stocks[..i])
      invariant AllHashable(stocks[..i])
    {
      if !Hashable(Ticker(stocks[i])) {
        return Failure("TypeError: unhashable type");
      }
      assert stocks[..i + 1] == stocks[..i] + [stocks[i]];
      seen, unique := DedupStep(seen, unique, stocks[i], stocks[..i]);
    }
    assert stocks[..|stocks|] == stocks;
    return Success(unique);
  }

  /** The unique list holds the first stock of each truthy ticker, in order of
      first occurrence, and has pairwise different tickers. */
  lemma UniqueIsFirstOccurrences(stocks: seq<Obj>)
    ensures var first := FirstIndices(stocks);
      && (forall a, b :: 0 <= a < b < |first| ==> first[a] < first[b])
      && (forall k :: 0 <= k < |first| ==> Truthy(Ticker(stocks[first[k]])))
      && (forall k, m :: 0 <= k < |first| && 0 <= m < first[k] ==>
            Key(Ticker(stocks[m])) != Key(Ticker(stocks[first[k]])))
      && (forall a, b :: 0 <= a < b < |first| ==>
            Key(Ticker(stocks[first[a]])) != Key(Ticker(stocks[first[b]])))
  {
    FirstIndicesOrdered(stocks);
    FirstKeysSeen(stocks);
    FirstKeysDistinct(stocks);
  }

  lemma {:induction false} FirstIndicesOrdered(p: seq<Obj>)
    ensures var first := FirstIndices(p);
      && (forall a, b :: 0 <= a < b < |first| ==> first[a] < first[b])
      && (forall k, m :: 0 <= k < |first| && 0 <= m < first[k] ==>
            Key(Ticker(p[m])) != Key(Ticker(p[first[k]])))
  {
    if p != [] {
      var n := |p| - 1;
      var q := p[..n];
      FirstIndicesOrdered(q);
      FirstIndicesSnoc(q, p[n]);
      SeenKeysSnoc(q, p[n]);
      assert q + [p[n]] == p;
      var t := Ticker(p[n]);
      if Truthy(t) && Key(t) !in SeenKeys(q) {
        forall m | 0 <= m < n ensures Key(Ticker(p[m])) != Key(t) {
          assert p[m] == q[m];
          SeenContains(q, m);
        }
      }
    }
  }

  /** Every truthy ticker of a prefix is seen. */
  lemma {:induction false} SeenContains(p: seq<Obj>, m: nat)
    requires m < |p|
    ensures Truthy(Ticker(p[m])) ==> Key(Ticker(p[m])) in SeenKeys(p)
  {
    var n := |p| - 1;
    SeenKeysSnoc(p[..n], p[n]);
    assert p[..n] + [p[n]] == p;
    if m < n {
      SeenContains(p[..n], m);
    }
  }

  /** The unique tickers are exactly the truthy tickers of the aggregate. */
  lemma UniqueTickerSet(stocks: seq<Obj>)
    ensures var first := FirstIndices(stocks);
      (set k | 0 <= k < |first| :: Key(Ticker(stocks[first[k]])))
      == (set m | 0 <= m < |stocks| && Truthy(Ticker(stocks[m])) :: Key(Ticker(stocks[m])))
  {
    var first := FirstIndices(stocks);
    FirstKeysSeen(stocks);
    forall m | 0 <= m < |stocks| && Truthy(Ticker(stocks[m]))
      ensures Key(Ticker(stocks[m])) in (set k | 0 <= k < |first| :: Key(Ticker(stocks[first[k]])))
    {
      SeenContains(stocks, m);
      var j := FindFirst(stocks, Key(Ticker(stocks[m])));
    }
  }

  /** An entry of the unique list is marked `_multi_scout` when its ticker
      occurs at least twice, and is the original stock when it occurs once. */
  lemma MultiScoutMark(stocks: seq<Obj>, k: nat)
    requires k < |FirstIndices(stocks)|
    ensures var s := stocks[FirstIndices(stocks)[k]];
      var c := Occurrences(stocks, Key(Ticker(s)));
      && c >= 1
      && (c >= 2 ==> Unique(stocks)[k] == s["_multi_scout" := JBool(true)])
      && (c == 1 ==> Unique(stocks)[k] == s)
  {
    FirstKeysSeen(stocks);
    SeenOccurred(stocks, Key(Ticker(stocks[FirstIndices(stocks)[k]])));
  }

  /** No more unique stocks than stocks. */
  lemma {:induction false} UniqueAtMostTotal(stocks: seq<Obj>)
    ensures |Unique(stocks)| <= |stocks|
  {
    if stocks != [] {
      UniqueAtMostTotal(stocks[..|stocks| - 1]);
    }
  }

  function TickerStock(t: string): Obj {
    map["ticker" := JStr(t)]
  }

  /** Three scouts find {x, y}, {x, z} and {w} (say {NVDA, AMD}, {NVDA, MSFT}
      and {GOOGL}): five stocks, four unique, x marked as found by several scouts. */
  lemma DedupExample(x: string, y: string, z: string, w: string)
    requires x != [] && y != [] && z != [] && w != []
    requires x != y && x != z && x != w && y != z && y != w && z != w
    ensures var stocks := [TickerStock(x), TickerStock(y), TickerStock(x), TickerStock(z), TickerStock(w)];
      Dedup(stocks) == Success([TickerStock(x)["_multi_scout" := JBool(true)],
                                TickerStock(y), TickerStock(z), TickerStock(w)])
  {
    var n, a, m, g := TickerStock(x), TickerStock(y), TickerStock(z), TickerStock(w);
    var nx := n["_multi_scout" := JBool(true)];
    DedupRepeat(x, y);
    DedupNew([n, a, n], {JStr(x), JStr(y)}, [nx, a], z);
    DedupNew([n, a, n] + [m], {JStr(x), JStr(y)} + {JStr(z)}, [nx, a] + [m], w);
    var stocks := [n, a, n, m, g];
    assert [n, a, n] + [m] + [g] == stocks;
    assert [nx, a] + [m] + [g] == [nx, a, m, g];
    assert Unique(stocks) == [nx, a, m, g];
    assert AllHashable(stocks);
  }

  /** A third stock repeating the first ticker marks the first stock. */
  lemma DedupRepeat(x: string, y: string)
    requires x != [] && y != [] && x != y
    ensures var n, a := TickerStock(x), TickerStock(y);
      && SeenKeys([n, a, n]) == {JStr(x), JStr(y)}
      && Unique([n, a, n]) == [n["_multi_scout" := JBool(true)], a]
  {
    var n, a := TickerStock(x), TickerStock(y);
    DedupPair(x, y);
    assert [n, a] + [n] == [n, a, n];
    assert Ticker(n) == JStr(x);
    SeenKeysSnoc([n, a], n);
    DedupRepeatFirst([n, a], [n, a], x);
    assert [n, a][0 := n["_multi_scout" := JBool(true)]] == [n["_multi_scout" := JBool(true)], a];
  }

  /** Two stocks with different tickers are both kept, unmarked. */
  lemma DedupPair(x: string, y: string)
    requires x != [] && y != [] && x != y
    ensures SeenKeys([TickerStock(x), TickerStock(y)]) == {JStr(x), JStr(y)}
    ensures Unique([TickerStock(x), TickerStock(y)]) == [TickerStock(x), TickerStock(y)]
  {
    var n, a := TickerStock(x), TickerStock(y);
    DedupSingle(x);
    DedupNew([n], {JStr(x)}, [n], y);
    assert [n] + [a] == [n, a];
  }

  /** A single stock with a truthy ticker is kept, unmarked. */
  lemma DedupSingle(x: string)
    requires x != []
    ensures SeenKeys([TickerStock(x)]) == {JStr(x)}
    ensures Unique([TickerStock(x)]) == [TickerStock(x)]
  {
    var none: seq<Obj> := [];
    var empty: set<Json> := {};
    assert Unique(none) == none;
    DedupNew(none, empty, none, x);
    assert none + [TickerStock(x)] == [TickerStock(x)];
  }

  /** A stock repeating the ticker of the first unique stock marks that one. */
  lemma DedupRepeatFirst(p: seq<Obj>, u: seq<Obj>, x: string)
    requires Unique(p) == u && |u| > 0 && u[0] == TickerStock(x) && JStr(x) in SeenKeys(p)
    ensures Unique(p + [TickerStock(x)]) == u[0 := u[0]["_multi_scout" := JBool(true)]]
  {
    var s := TickerStock(x);
    assert Ticker(s) == JStr(x);
    var j := UniqueSnocSeen(p, s);
    assert Lookup(u[0], "ticker", JNull) == JStr(x);
    assert j == 0;
  }

  /** A stock with a new ticker is appended unmarked. */
  lemma DedupNew(p: seq<Obj>, seen: set<Json>, u: seq<Obj>, z: string)
    requires SeenKeys(p) == seen && Unique(p) == u
    requires z != [] && JStr(z) !in seen
    ensures SeenKeys(p + [TickerStock(z)]) == seen + {JStr(z)}
    ensures Unique(p + [TickerStock(z)]) == u + [TickerStock(z)]
  {
    var m := TickerStock(z);
    assert Ticker(m) == JStr(z);
    SeenKeysSnoc(p, m);
    UniqueSnocNew(p, m);
  }

  // ---------------------------------------------------------------------
  // Steps 5 and 6: screening and the final result

  datatype Stats = Stats(scoutsRun: nat, totalDiscovered: nat, uniqueStocks: nat,
                         hotCount: Json, warmCount: Json, coldCount: Json)

  datatype Discovery = Discovery(universe: Json, stats: Stats,
                                 scoutSummaries: seq<ScoutSummary>, screeningSummary: Json)

  /** Steps 5 and 6 after deduplication: the screener's dict gives the universe,
      the tier counts (0 when missing) and the summary. */
  function Screened(scoutsRun: nat, a: Aggregate, unique: seq<Obj>, screened: Result<Json, string>)
    : Result<Discovery, string>
  {
    match screened
    case Failure(e) => Failure(e)
    case Success(s) =>
      match s
      case JObj(o) =>
        Success(Discovery(
          Lookup(o, "screened_stocks", EmptyObj),
          Stats(scoutsRun, |a.stocks|, |unique|,
                Lookup(o, "hot_count", JNum(0.0)), Lookup(o, "warm_count", JNum(0.0)),
                Lookup(o, "cold_count", JNum(0.0))),
          a.summaries,
          Lookup(o, "summary", JStr(""))))
      case _ => Failure("AttributeError: object has no attribute 'get'")
  }

  /** The screener agent's outcome for its context: the unique stocks, the
      mandate and the themes (after `themes or []`). */
  type Screener = (seq<Obj>, Json, Json) -> Result<Json, string>

  /** The scouts' outcomes are one per planned task. */
  predicate OutcomesFit(themes: Json, mandate: Json, runAll: bool, repr: Json -> string,
                        outcomes: seq<Result<Obj, string>>) {
    Plan(themes, mandate, runAll, repr).Success? ==>
      |outcomes| == |Plan(themes, mandate, runAll, repr).value|
  }

  /** The result of `discover` given the scouts' outcomes, in task order, and
      the screener (think path: any JSON value, which must be a dict for `.get`). */
  function Discovered(themes: Json, mandate: Json, runAll: bool, repr: Json -> string,
                      outcomes: seq<Result<Obj, string>>, screener: Screener)
    : (r: Result<Discovery, string>)
    requires OutcomesFit(themes, mandate, runAll, repr, outcomes)
    ensures !runAll && Truthy(mandate) && !mandate.JStr? ==> r.Failure?
    ensures r.Success? ==> Plan(themes, mandate, runAll, repr).Success?
                           && r.value.stats.scoutsRun == |Plan(themes, mandate, runAll, repr).value|
  {
    match Plan(themes, mandate, runAll, repr)
    case Failure(e) => Failure(e)
    case Success(names) =>
      var results := Tagged(names, outcomes);
      match Aggregated(results, |results|)
      case Failure(e) => Failure(e)
      case Success(a) =>
        match Dedup(a.stocks)
        case Failure(e) => Failure(e)
        case Success(unique) =>
          Screened(|names|, a, unique, screener(unique, mandate, ThemesArg(themes)))
  }

  /** `ScoutPipeline.discover`; `exclude_tickers` only reaches the scouts' contexts. */
  method Discover(themes: Json, mandate: Json, runAll: bool, repr: Json -> string,
                  outcomes: seq<Result<Obj, string>>, screener: Screener)
    returns (r: Result<Discovery, string>)
    requires OutcomesFit(themes, mandate, runAll, repr, outcomes)
    ensures r == Discovered(themes, mandate, runAll, repr, outcomes, screener)
  {
    var names := PlanScouts(themes, mandate, runAll, repr);
    if names.Failure? {
      return Failure(names.error);
    }
    var results := Tagged(names.value, outcomes);
    var agg := AggregateResults(results);
    if agg.Failure? {
      return Failure(agg.error);
    }
    var unique := Deduplicate(agg.value.stocks);
    if unique.Failure? {
      return Failure(unique.error);
    }
    var screened := screener(unique.value, mandate, ThemesArg(themes));
    r := Screen(|names.value|, agg.value, unique.value, screened);
  }

  /** The screening step of `discover`. */
  method Screen(scoutsRun: nat, a: Aggregate, unique: seq<Obj>, screened: Result<Json, string>)
    returns (r: Result<Discovery, string>)
    ensures r.Success? <==> screened.Success? && screened.value.JObj?
    ensures r == Screened(scoutsRun, a, unique, screened)
  {
    if screened.Failure? {
      return Failure(screened.error);
    }
    var s := screened.value;
    if !s.JObj? {
      return Failure("AttributeError: object has no attribute 'get'");
    }
    var o := s.fields;
    var stats := Stats(scoutsRun, |a.stocks|, |unique|,
                       Lookup(o, "hot_count", JNum(0.0)), Lookup(o, "warm_count", JNum(0.0)),
                       Lookup(o, "cold_count", JNum(0.0)));
    r := Success(Discovery(Lookup(o, "screened_stocks", EmptyObj), stats, a.summaries,
                           Lookup(o, "summary", JStr(""))));
  }

  /** A task list that cannot be built fails the discovery with its error,
      before any scout or the screener runs. */
  lemma PlanFailureFailsDiscovery(themes: Json, mandate: Json, runAll: bool, repr: Json -> string,
                                  outcomes: seq<Result<Obj, string>>, screener: Screener)
    requires Plan(themes, mandate, runAll, repr).Failure?
    ensures Discovered(themes, mandate, runAll, repr, outcomes, screener)
            == Failure(Plan(themes, mandate, runAll, repr).error)
    ensures !runAll && Truthy(mandate) && !mandate.JStr? ==>
              Discovered(themes, mandate, runAll, repr, outcomes, screener).Failure?
  {
  }

  /** What a successful discovery is made of: the screener saw the unique stocks
      of the aggregate, the mandate and the themes, and returned a dict. */
  lemma DiscoveryParts(themes: Json, mandate: Json, runAll: bool, repr: Json -> string,
                       outcomes: seq<Result<Obj, string>>, screener: Screener)
    requires OutcomesFit(themes, mandate, runAll, repr, outcomes)
    requires Discovered(themes, mandate, runAll, repr, outcomes, screener).Success?
    ensures Plan(themes, mandate, runAll, repr).Success?
    ensures var names := Plan(themes, mandate, runAll, repr).value;
      var agg := Aggregated(Tagged(names, outcomes), |outcomes|);
      var d := Discovered(themes, mandate, runAll, repr, outcomes, screener).value;
      && agg.Success? && AllHashable(agg.value.stocks)
      && var sc := screener(Unique(agg.value.stocks), mandate, ThemesArg(themes));
      && sc.Success? && sc.value.JObj?
      && d.stats.scoutsRun == |names|
      && d.stats.totalDiscovered == |agg.value.stocks|
      && d.stats.uniqueStocks == |Unique(agg.value.stocks)|
      && d.scoutSummaries == agg.value.summaries
      && d.universe == Lookup(sc.value.fields, "screened_stocks", EmptyObj)
      && d.stats.hotCount == Lookup(sc.value.fields, "hot_count", JNum(0.0))
      && d.stats.warmCount == Lookup(sc.value.fields, "warm_count", JNum(0.0))
      && d.stats.coldCount == Lookup(sc.value.fields, "cold_count", JNum(0.0))
  {
  }

  /** `scouts_run` is 2, plus 1 for Disruption, plus one per visited theme. */
  lemma ScoutsRunCount(themes: Json, mandate: Json, runAll: bool, repr: Json -> string,
                       outcomes: seq<Result<Obj, string>>, screener: Screener)
    requires OutcomesFit(themes, mandate, runAll, repr, outcomes)
    requires Discovered(themes, mandate, runAll, repr, outcomes, screener).Success?
    ensures RunsDisruption(mandate, runAll).Success? && ThemeItems(themes).Success?
    ensures Discovered(themes, mandate, runAll, repr, outcomes, screener).value.stats.scoutsRun
            == 2 + (if RunsDisruption(mandate, runAll).value then 1 else 0) + |ThemeItems(themes).value|
  {
    DiscoveryParts(themes, mandate, runAll, repr, outcomes, screener);
    ScoutSelection(ThemeItems(themes).value, RunsDisruption(mandate, runAll).value, repr);
  }

  /** `total_discovered` is the sum of the per-scout counts in the summaries. */
  lemma TotalDiscoveredIsSum(themes: Json, mandate: Json, runAll: bool, repr: Json -> string,
                             outcomes: seq<Result<Obj, string>>, screener: Screener)
    requires OutcomesFit(themes, mandate, runAll, repr, outcomes)
    requires Discovered(themes, mandate, runAll, repr, outcomes, screener).Success?
    ensures var d := Discovered(themes, mandate, runAll, repr, outcomes, screener).value;
      d.stats.totalDiscovered == SumCounts(d.scoutSummaries)
  {
    DiscoveryParts(themes, mandate, runAll, repr, outcomes, screener);
    TotalIsSumOfCounts(Tagged(Plan(themes, mandate, runAll, repr).value, outcomes), |outcomes|);
  }

  /** `unique_stocks` never exceeds `total_discovered`. */
  lemma UniqueAtMostDiscovered(themes: Json, mandate: Json, runAll: bool, repr: Json -> string,
                               outcomes: seq<Result<Obj, string>>, screener: Screener)
    requires OutcomesFit(themes, mandate, runAll, repr, outcomes)
    requires Discovered(themes, mandate, runAll, repr, outcomes, screener).Success?
    ensures var d := Discovered(themes, mandate, runAll, repr, outcomes, screener).value;
      d.stats.uniqueStocks <= d.stats.totalDiscovered
  {
    DiscoveryParts(themes, mandate, runAll, repr, outcomes, screener);
    var names := Plan(themes, mandate, runAll, repr).value;
    UniqueAtMostTotal(Aggregated(Tagged(names, outcomes), |outcomes|).value.stocks);
  }

  /** The summaries name exactly the successful scouts, in task order. */
  lemma SummariesNameSucceeded(themes: Json, mandate: Json, runAll: bool, repr: Json -> string,
                               outcomes: seq<Result<Obj, string>>, screener: Screener)
    requires OutcomesFit(themes, mandate, runAll, repr, outcomes)
    requires Discovered(themes, mandate, runAll, repr, outcomes, screener).Success?
    ensures Plan(themes, mandate, runAll, repr).Success?
    ensures SummaryNames(Discovered(themes, mandate, runAll, repr, outcomes, screener).value.scoutSummaries)
            == SucceededNames(Plan(themes, mandate, runAll, repr).value, outcomes)
  {
    DiscoveryParts(themes, mandate, runAll, repr, outcomes, screener);
    SummariesOfAll(Plan(themes, mandate, runAll, repr).value, outcomes);
  }

  lemma SummariesOfAll(names: seq<string>, outcomes: seq<Result<Obj, string>>)
    requires |names| == |outcomes|
    requires Aggregated(Tagged(names, outcomes), |outcomes|).Success?
    ensures SummaryNames(Aggregated(Tagged(names, outcomes), |outcomes|).value.summaries)
            == SucceededNames(names, outcomes)
  {
    SummariesOfSucceeded(names, outcomes, |outcomes|);
    assert names[..|outcomes|] == names && outcomes[..|outcomes|] == outcomes;
  }

  /** Missing screener fields default to 0 and the universe to `{}`; once the
      scouts' stocks are aggregated and deduplicated, a screener that fails or
      returns a non-dict makes the discovery fail. */
  lemma ScreenerDefaults(themes: Json, mandate: Json, runAll: bool, repr: Json -> string,
                         outcomes: seq<Result<Obj, string>>, screener: Screener)
    requires OutcomesFit(themes, mandate, runAll, repr, outcomes)
    requires Plan(themes, mandate, runAll, repr).Success?
    ensures var agg := Aggregated(Tagged(Plan(themes, mandate, runAll, repr).value, outcomes), |outcomes|);
      agg.Success? && AllHashable(agg.value.stocks) ==>
      var sc := screener(Unique(agg.value.stocks), mandate, ThemesArg(themes));
      var r := Discovered(themes, mandate, runAll, repr, outcomes, screener);
      && (sc.Failure? || !sc.value.JObj? ==> r.Failure?)
      && (r.Success? ==>
            && ("hot_count" !in sc.value.fields ==> r.value.stats.hotCount == JNum(0.0))
            && ("warm_count" !in sc.value.fields ==> r.value.stats.warmCount == JNum(0.0))
            && ("cold_count" !in sc.value.fields ==> r.value.stats.coldCount == JNum(0.0))
            && ("screened_stocks" !in sc.value.fields ==> r.value.universe == EmptyObj))
  {
    var names := Plan(themes, mandate, runAll, repr).value;
    var agg := Aggregated(Tagged(names, outcomes), |outcomes|);
    if agg.Success? && AllHashable(agg.value.stocks) {
      var unique := Unique(agg.value.stocks);
      assert Dedup(agg.value.stocks) == Success(unique);
      var sc := screener(unique, mandate, ThemesArg(themes));
      assert Discovered(themes, mandate, runAll, repr, outcomes, screener)
             == Screened(|names|, agg.value, unique, sc);
      ScreenedDefaults(|names|, agg.value, unique, sc);
    }
  }

  /** The final step: missing fields default, a failed or non-dict screening fails. */
  lemma ScreenedDefaults(scoutsRun: nat, a: Aggregate, unique: seq<Obj>, sc: Result<Json, string>)
    ensures sc.Failure? || !sc.value.JObj? ==> Screened(scoutsRun, a, unique, sc).Failure?
    ensures var r := Screened(scoutsRun, a, unique, sc);
      r.Success? ==>
        && ("hot_count" !in sc.value.fields ==> r.value.stats.hotCount == JNum(0.0))
        && ("warm_count" !in sc.value.fields ==> r.value.stats.warmCount == JNum(0.0))
        && ("cold_count" !in sc.value.fields ==> r.value.stats.coldCount == JNum(0.0))
        && ("screened_stocks" !in sc.value.fields ==> r.value.universe == EmptyObj)
  {
  }
}
