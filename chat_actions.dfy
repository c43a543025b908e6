/** The action endpoint of the chat (backend/api/routes/chat.py,
    `execute_action`): load the conversation, run the workflow step the
    action names on its state dict, commit.  The scout pipeline, the analysis
    pipeline and the portfolio manager are inputs: functions from their
    arguments to what they return or the text of what they raise. */
module ChatActions {
  import opened Wrappers
  import opened JsonValues
  import opened Text
  import opened Store
  import opened Conversations

  /** What a step leaves for the commit: the response, the state it writes
      back (`None`: the conversation is not touched), the positions it adds
      and the index of the fund it sets to "active". */
  datatype Outcome = Outcome(response: Obj, state: Option<Obj>, positions: seq<PositionRow>,
                             activated: Option<nat>)

  /** What the `try` block can raise: the missing conversation (an HTTP 404)
      or any other exception, by its text. */
  datatype Raised = NotFound | Error(text: string)

  const NotFoundDetail := "Conversation not found"
  const HotLimit: nat := 10
  const AnalyzeLimit: nat := 5
  const DefaultWeight: Json := JNum(0.05)

  /** The scout pipeline's `discover(themes, mandate, exclude_tickers)`. */
  type Discover = (Json, Json, Json) -> Result<Json, string>
  /** `analyze_stock(ticker)`. */
  type Analyze = Json -> Result<Json, string>
  /** The portfolio manager's `run` on its context. */
  type Manager = Obj -> Result<Json, string>

  /** `conversation.state or {}`. */
  function LoadedState(rec: Record): Obj {
    rec.state.GetOr(map[])
  }

  /** `state.get("fund_params", {})`. */
  function FundParams(state: Obj): Json {
    Lookup(state, "fund_params", EmptyObj)
  }

  // ---------------------------------------------------------------------
  // scouting

  /** `[s.get("ticker") for s in stocks]`: every element must be a dict. */
  function TickersOf(stocks: seq<Json>): (r: Result<seq<Json>, string>)
    ensures r.Success? <==> forall k :: 0 <= k < |stocks| ==> stocks[k].JObj?
    ensures r.Success? ==> |r.value| == |stocks|
    ensures r.Success? ==> forall k :: 0 <= k < |stocks| ==>
              stocks[k].JObj? && r.value[k] == Lookup(stocks[k].fields, "ticker", JNull)
  {
    if stocks == [] then Success([])
    else match Get(stocks[0], "ticker", JNull)
      case Failure(e) => Failure(e)
      case Success(t) =>
        match TickersOf(stocks[1..])
        case Failure(e) => Failure(e)
        case Success(rest) => Success([t] + rest)
  }

  /** `discovery.get("universe", {}).get("hot", [])`, its first ten entries
      and their tickers. */
  function HotTickers(discovery: Json): Result<seq<Json>, string> {
    match Get(discovery, "universe", EmptyObj)
    case Failure(e) => Failure(e)
    case Success(universe) =>
      match Get(universe, "hot", JArr([]))
      case Failure(e) => Failure(e)
      case Success(hot) =>
        match Prefix(hot, HotLimit)
        case Failure(e) => Failure(e)
        case Success(top) => TickersOf(top)
  }

  /** The `scouting` step: discover for the fund's themes (default
      ["growth"]), mandate and exclusions; keep the hot tickers. */
  function Scouting(state: Obj, discover: Discover): (r: Result<Outcome, string>)
    ensures !FundParams(state).JObj? ==> r.Failure?
    ensures r.Success? ==> r.value.state.Some? && "phase" in r.value.state.value
                           && r.value.state.value["phase"] == JStr("discovered")
    ensures r.Success? ==> r.value.positions == [] && r.value.activated.None?
  {
    var fundParams := FundParams(state);
    match Get(fundParams, "themes", JArr([JStr("growth")]))
    case Failure(e) => Failure(e)
    case Success(themes) =>
      var p := fundParams.fields;
      match discover(themes, Lookup(p, "mandate", JStr("")), Lookup(p, "exclude", JArr([])))
      case Failure(e) => Failure(e)
      case Success(discovery) =>
        match HotTickers(discovery)
        case Failure(e) => Failure(e)
        case Success(tickers) =>
          Success(Outcome(
            map["status" := JStr("complete"),
                "message" := JStr("Found " + NatToString(|tickers|) + " promising stocks to analyze."),
                "stocks" := JArr(tickers)],
            Some(state["discovered_stocks" := JArr(tickers)]["phase" := JStr("discovered")]),
            [], None))
  }

  // ---------------------------------------------------------------------
  // analyzing

  /** One pass of the analysing loop's `try`: the summary of the ticker's
      thesis, or nothing when the analysis or a `.get` raised. */
  function ThesisEntry(ticker: Json, analysis: Result<Json, string>): Option<Json> {
    match analysis
    case Failure(_) => None
    case Success(result) =>
      match Get(result, "thesis", EmptyObj)
      case Failure(_) => None
      case Success(thesis) =>
        if !thesis.JObj? then None
        else
          var t := thesis.fields;
          Some(JObj(map["ticker" := ticker,
                        "recommendation" := Lookup(t, "recommendation", JNull),
                        "conviction" := Lookup(t, "conviction", JNull),
                        "thesis_summary" := Lookup(t, "thesis_summary", JNull)]))
  }

  /** The entries the analysing loop collects, in ticker order. */
  function Entries(tickers: seq<Json>, analyze: Analyze): seq<Json>
    decreases |tickers|
  {
    if tickers == [] then []
    else
      var last := tickers[|tickers| - 1];
      var before := Entries(tickers[..|tickers| - 1], analyze);
      match ThesisEntry(last, analyze(last))
      case None => before
      case Some(e) => before + [e]
  }

  /** The analysing loop: `try … theses.append(…) except: pass`. */
  method AnalyzeEach(tickers: seq<Json>, analyze: Analyze) returns (theses: seq<Json>)
    ensures theses == Entries(tickers, analyze)
  {
    theses := [];
    var i := 0;
    while i < |tickers|
      invariant 0 <= i <= |tickers|
      invariant theses == Entries(tickers[..i], analyze)
    {
      assert tickers[..i + 1][..i] == tickers[..i];
      var entry := ThesisEntry(tickers[i], analyze(tickers[i]));
      if entry.Some? {
        theses := theses + [entry.value];
      }
      i := i + 1;
    }
    assert tickers[..i] == tickers;
  }

  /** The `analyzing` step: the first five discovered stocks, one after the other. */
  function Analyzing(state: Obj, analyze: Analyze): (r: Result<Outcome, string>)
    ensures r.Success? <==> Lookup(state, "discovered_stocks", JArr([])).JArr?
                            || Lookup(state, "discovered_stocks", JArr([])).JStr?
    ensures r.Success? ==> r.value.state.Some? && "phase" in r.value.state.value
                           && r.value.state.value["phase"] == JStr("analyzed")
    ensures r.Success? ==> r.value.positions == [] && r.value.activated.None?
  {
    match Prefix(Lookup(state, "discovered_stocks", JArr([])), AnalyzeLimit)
    case Failure(e) => Failure(e)
    case Success(tickers) => Success(Analyzed(state, Entries(tickers, analyze)))
  }

  function Analyzed(state: Obj, theses: seq<Json>): Outcome {
    Outcome(
      map["status" := JStr("complete"),
          "message" := JStr("Analyzed " + NatToString(|theses|) + " stocks."),
          "theses" := JArr(theses)],
      Some(state["theses" := JArr(theses)]["phase" := JStr("analyzed")]),
      [], None)
  }

  // ---------------------------------------------------------------------
  // building_portfolio

  /** One allocation: a "proposed" position when its ticker is truthy, none
      otherwise; an allocation that is not a dict raises. */
  function Allocation(alloc: Json, fundId: Json): (r: Result<Option<PositionRow>, string>)
    ensures r.Success? <==> alloc.JObj?
    ensures r.Success? ==> (r.value.Some? <==> Truthy(Lookup(alloc.fields, "ticker", JNull)))
    ensures r.Success? && r.value.Some? ==>
              r.value.value.status == "proposed" && r.value.value.fundId == fundId
              && r.value.value.ticker == alloc.fields["ticker"]
  {
    match Get(alloc, "ticker", JNull)
    case Failure(e) => Failure(e)
    case Success(ticker) =>
      if !Truthy(ticker) then Success(None)
      else
        var a := alloc.fields;
        var weight := Lookup(a, "weight", DefaultWeight);
        Success(Some(PositionRow(fundId, ticker, Lookup(a, "company", Lookup(a, "company_name", ticker)),
                                 weight, weight, None, "proposed", None)))
  }

  /** The positions of the allocations in order; the first allocation that
      raises ends the request. */
  function Proposed(allocs: seq<Json>, fundId: Json): (r: Result<seq<PositionRow>, string>)
    ensures r.Success? <==> forall k :: 0 <= k < |allocs| ==> allocs[k].JObj?
    ensures r.Success? ==> |r.value| <= |allocs|
    decreases |allocs|
  {
    if allocs == [] then Success([])
    else match Proposed(allocs[..|allocs| - 1], fundId)
      case Failure(e) => Failure(e)
      case Success(before) =>
        match Allocation(allocs[|allocs| - 1], fundId)
        case Failure(e) => Failure(e)
        case Success(p) => Success(before + if p.Some? then [p.value] else [])
  }

  /** The position loop of `building_portfolio`. */
  method ProposeEach(allocs: seq<Json>, fundId: Json) returns (r: Result<seq<PositionRow>, string>)
    ensures r == Proposed(allocs, fundId)
  {
    var created: seq<PositionRow> := [];
    var i := 0;
    while i < |allocs|
      invariant 0 <= i <= |allocs|
      invariant Proposed(allocs[..i], fundId) == Success(created)
    {
      var p := Allocation(allocs[i], fundId);
      ProposedStep(allocs, i, fundId);
      if p.Failure? {
        ProposedFailurePropagates(allocs, i + 1, fundId, p.error);
        return Failure(p.error);
      }
      if p.value.Some? {
        created := created + [p.value.value];
      } else {
        assert created + [] == created;
      }
      i := i + 1;
    }
    assert allocs[..i] == allocs;
    r := Success(created);
  }

  /** The fund `select(Fund).where(Fund.id == fund_id)` finds. */
  function FundOf(funds: seq<FundRow>, fundId: Json): (r: Option<nat>)
    ensures r.Some? ==> fundId.JStr? && r.value < |funds| && funds[r.value].id == fundId.s
    ensures fundId.JStr? && (exists k :: 0 <= k < |funds| && funds[k].id == fundId.s) ==> r.Some?
  {
    if fundId.JStr? then FundIndex(funds, fundId.s) else None
  }

  /** The positions and the fund to activate: only when `fund_id` and the
      portfolio are both truthy.  The allocations are the portfolio's
      "positions", else its "allocations" (the default is evaluated first). */
  function Placement(funds: seq<FundRow>, fundId: Json, portfolio: Json)
    : (r: Result<(seq<PositionRow>, Option<nat>), string>)
    ensures r.Success? && r.value.1.Some? ==> r.value.1.value < |funds|
  {
    if !(Truthy(fundId) && Truthy(portfolio)) then Success(([], None))
    else match Get(portfolio, "allocations", JArr([]))
      case Failure(e) => Failure(e)
      case Success(inner) =>
        match Iterate(Lookup(portfolio.fields, "positions", inner))
        case Failure(e) => Failure(e)
        case Success(allocs) =>
          match Proposed(allocs, fundId)
          case Failure(e) => Failure(e)
          case Success(ps) => Success((ps, FundOf(funds, fundId)))
  }

  /** `positions_created`: the tickers of the new positions. */
  function TickersOfRows(ps: seq<PositionRow>): (r: seq<Json>)
    ensures |r| == |ps| && forall k :: 0 <= k < |ps| ==> r[k] == ps[k].ticker
  {
    seq(|ps|, k requires 0 <= k < |ps| => ps[k].ticker)
  }

  /** The portfolio manager's context: the theses, mandate and constraints. */
  function ManagerContext(state: Obj): Result<Obj, string> {
    var fundParams := FundParams(state);
    match Get(fundParams, "mandate", JStr(""))
    case Failure(e) => Failure(e)
    case Success(mandate) =>
      Success(map["theses" := Lookup(state, "theses", JArr([])), "mandate" := mandate,
                  "constraints" := Lookup(fundParams.fields, "constraints", EmptyObj)])
  }

  /** The `building_portfolio` step once the portfolio is known. */
  function Built(state: Obj, funds: seq<FundRow>, portfolio: Json): (r: Result<Outcome, string>)
    ensures r.Success? && r.value.activated.Some? ==> r.value.activated.value < |funds|
  {
    var fundId := Lookup(state, "fund_id", JNull);
    match Placement(funds, fundId, portfolio)
    case Failure(e) => Failure(e)
    case Success(placed) =>
      Success(Outcome(
        map["status" := JStr("complete"),
            "message" := JStr("Portfolio built with " + NatToString(|placed.0|)
                              + " positions! Your fund is now active."),
            "portfolio" := portfolio, "fund_id" := fundId,
            "positions" := JArr(TickersOfRows(placed.0))],
        Some(state["proposed_portfolio" := portfolio]["phase" := JStr("complete")]),
        placed.0, placed.1))
  }

  /** The `building_portfolio` step. */
  function Building(state: Obj, funds: seq<FundRow>, pm: Manager): (r: Result<Outcome, string>)
    ensures r.Success? && r.value.activated.Some? ==> r.value.activated.value < |funds|
  {
    match ManagerContext(state)
    case Failure(e) => Failure(e)
    case Success(context) =>
      match pm(context)
      case Failure(e) => Failure(e)
      case Success(portfolio) => Built(state, funds, portfolio)
  }

  // ---------------------------------------------------------------------
  // The endpoint

  /** The step an action names on a loaded conversation; any other action
      answers "unknown_action" and touches nothing. */
  function Step(rec: Record, funds: seq<FundRow>, action: string,
                discover: Discover, analyze: Analyze, pm: Manager): (r: Result<Outcome, string>)
    ensures r.Success? && r.value.activated.Some? ==> r.value.activated.value < |funds|
  {
    var state := LoadedState(rec);
    if action == "scouting" then Scouting(state, discover)
    else if action == "analyzing" then Analyzing(state, analyze)
    else if action == "building_portfolio" then Building(state, funds, pm)
    else Success(Outcome(map["status" := JStr("unknown_action"), "action" := JStr(action)], None, [], None))
  }

  /** The body of the `try` block. */
  function Execute(conversations: map<string, Record>, funds: seq<FundRow>, id: string, action: string,
                   discover: Discover, analyze: Analyze, pm: Manager): (r: Result<Outcome, Raised>)
    ensures r.Success? && r.value.activated.Some? ==> r.value.activated.value < |funds|
  {
    if id !in conversations then Failure(NotFound)
    else match Step(conversations[id], funds, action, discover, analyze, pm)
      case Failure(e) => Failure(Error(e))
      case Success(o) => Success(o)
  }

  /** The HTTP error as written: the `except Exception` around the block also
      catches the 404 and answers 500 with its text, "404: Conversation not found". */
  function HttpErrorAsWritten(e: Raised): (r: HttpError)
    ensures r.status == 500
  {
    match e
    case NotFound => HttpError(500, "404: " + NotFoundDetail)
    case Error(t) => HttpError(500, t)
  }

  /** The HTTP error as intended: the missing conversation is a 404. */
  function HttpErrorOf(e: Raised): (r: HttpError)
    ensures r.status == 404 <==> e.NotFound?
  {
    match e
    case NotFound => HttpError(404, NotFoundDetail)
    case Error(t) => HttpError(500, t)
  }

  /** The state the commit stores as written.  The step changes the loaded
      dict in place and assigns it back; for a non-empty loaded dict that is
      the very object the session loaded, so the JSON column shows no change
      and the old state stays.  For a missing or empty state the step works
      on a fresh `{}`, which is stored. */
  function StoredStateAsWritten(loaded: Record, o: Outcome): (r: Option<Obj>)
    ensures r == loaded.state || r == o.state
    ensures loaded.state.Some? && loaded.state.value != map[] ==> r == loaded.state
    ensures o.state.None? ==> r == loaded.state
  {
    if o.state.None? then loaded.state
    else if loaded.state.Some? && loaded.state.value != map[] then loaded.state
    else o.state
  }

  /** The state the commit stores as intended: the step's new state. */
  function StoredState(loaded: Record, o: Outcome): (r: Option<Obj>)
    ensures o.state.Some? ==> r == o.state
    ensures o.state.None? ==> r == loaded.state
  {
    if o.state.Some? then o.state else loaded.state
  }

  /** `fund.status = "active"` on the found fund, if any. */
  function Activated(funds: seq<FundRow>, k: Option<nat>): (r: seq<FundRow>)
    requires k.Some? ==> k.value < |funds|
    ensures |r| == |funds|
    ensures forall j :: 0 <= j < |funds| && (k.None? || j != k.value) ==> r[j] == funds[j]
    ensures k.Some? ==> r[k.value] == funds[k.value].(status := "active")
  {
    if k.Some? then funds[k.value := funds[k.value].(status := "active")] else funds
  }

  /** The tables after `execute_action` with outcome `ex`: a failure changes
      nothing; a step stores its state, adds its positions and activates its fund. */
  predicate Executed(ex: Result<Outcome, Raised>, id: string, r: Result<Obj, HttpError>,
                     conversations: map<string, Record>, funds: seq<FundRow>, positions: seq<PositionRow>,
                     conversations': map<string, Record>, funds': seq<FundRow>, positions': seq<PositionRow>)
  {
    match ex
    case Failure(e) =>
      r == Failure(HttpErrorOf(e)) && conversations' == conversations && funds' == funds && positions' == positions
    case Success(o) =>
      && id in conversations
      && (o.activated.Some? ==> o.activated.value < |funds|)
      && r == Success(o.response)
      && conversations' == conversations[id := conversations[id].(state := StoredState(conversations[id], o))]
      && positions' == positions + o.positions
      && funds' == Activated(funds, o.activated)
  }

  /** The `building_portfolio` step on the object level: the context, the
      manager's call and the position loop. */
  method Build(state: Obj, funds: seq<FundRow>, pm: Manager) returns (r: Result<Outcome, string>)
    ensures r == Building(state, funds, pm)
  {
    var context := ManagerContext(state);
    if context.Failure? {
      return Failure(context.error);
    }
    var portfolio := pm(context.value);
    if portfolio.Failure? {
      return Failure(portfolio.error);
    }
    var fundId := Lookup(state, "fund_id", JNull);
    var created: seq<PositionRow> := [];
    var fund: Option<nat> := None;
    if Truthy(fundId) && Truthy(portfolio.value) {
      var inner := Get(portfolio.value, "allocations", JArr([]));
      if inner.Failure? {
        return Failure(inner.error);
      }
      var allocs := Iterate(Lookup(portfolio.value.fields, "positions", inner.value));
      if allocs.Failure? {
        return Failure(allocs.error);
      }
      var ps := ProposeEach(allocs.value, fundId);
      if ps.Failure? {
        return Failure(ps.error);
      }
      created := ps.value;
      fund := FundOf(funds, fundId);
    }
    r := Built(state, funds, portfolio.value);
    assert Placement(funds, fundId, portfolio.value) == Success((created, fund));
  }

  /** The dispatch on the action. */
  method Act(rec: Record, funds: seq<FundRow>, action: string,
             discover: Discover, analyze: Analyze, pm: Manager) returns (r: Result<Outcome, string>)
    ensures r == Step(rec, funds, action, discover, analyze, pm)
  {
    var state := LoadedState(rec);
    if action == "scouting" {
      r := Scouting(state, discover);
    } else if action == "analyzing" {
      var tickers := Prefix(Lookup(state, "discovered_stocks", JArr([])), AnalyzeLimit);
      if tickers.Failure? {
        return Failure(tickers.error);
      }
      var theses := AnalyzeEach(tickers.value, analyze);
      r := Success(Analyzed(state, theses));
    } else if action == "building_portfolio" {
      r := Build(state, funds, pm);
    } else {
      r := Success(Outcome(map["status" := JStr("unknown_action"), "action" := JStr(action)], None, [], None));
    }
  }

  /** `session.commit()` after a step. */
  method Apply(db: Database, id: string, o: Outcome)
    requires id in db.conversations
    requires o.activated.Some? ==> o.activated.value < |db.funds|
    modifies db
    ensures db.conversations
            == old(db.conversations)[id := old(db.conversations)[id].(state := StoredState(old(db.conversations)[id], o))]
    ensures db.positions == old(db.positions) + o.positions
    ensures db.funds == Activated(old(db.funds), o.activated)
    ensures UniqueIds(old(db.funds)) ==> UniqueIds(db.funds)
    ensures db.theses == old(db.theses) && db.alerts == old(db.alerts) && db.riskReports == old(db.riskReports)
  {
    var rec := db.conversations[id];
    db.conversations := db.conversations[id := rec.(state := StoredState(rec, o))];
    db.positions := db.positions + o.positions;
    db.funds := Activated(db.funds, o.activated);
  }

  /** `execute_action`, with the missing conversation answered as a 404. */
  method ExecuteAction(db: Database, id: string, action: string,
                       discover: Discover, analyze: Analyze, pm: Manager)
    returns (r: Result<Obj, HttpError>)
    modifies db
    ensures Executed(Execute(old(db.conversations), old(db.funds), id, action, discover, analyze, pm), id, r,
                     old(db.conversations), old(db.funds), old(db.positions),
                     db.conversations, db.funds, db.positions)
    ensures db.theses == old(db.theses) && db.alerts == old(db.alerts) && db.riskReports == old(db.riskReports)
  {
    if id !in db.conversations {
      return Failure(HttpErrorOf(NotFound));
    }
    var step := Act(db.conversations[id], db.funds, action, discover, analyze, pm);
    if step.Failure? {
      return Failure(HttpErrorOf(Error(step.error)));
    }
    Apply(db, id, step.value);
    r := Success(step.value.response);
  }

  // ---------------------------------------------------------------------
  // Properties

  /** One more allocation: its position (if any) is appended. */
  lemma ProposedStep(allocs: seq<Json>, i: nat, fundId: Json)
    requires i < |allocs| && Proposed(allocs[..i], fundId).Success?
    ensures Allocation(allocs[i], fundId).Success? ==>
              Proposed(allocs[..i + 1], fundId)
              == Success(Proposed(allocs[..i], fundId).value
                         + if Allocation(allocs[i], fundId).value.Some? then [Allocation(allocs[i], fundId).value.value] else [])
  {
    assert allocs[..i + 1][..i] == allocs[..i];
  }

  lemma ProposedFailurePropagates(allocs: seq<Json>, n: nat, fundId: Json, e: string)
    requires 0 < n <= |allocs|
    requires Proposed(allocs[..n - 1], fundId).Success? && Allocation(allocs[n - 1], fundId) == Failure(e)
    ensures Proposed(allocs, fundId) == Failure(e)
  {
    assert allocs[..n][..n - 1] == allocs[..n - 1];
    ProposedFailureStays(allocs, n, fundId, e);
  }

  /** Once a prefix of the allocations raises, the whole list raises the same. */
  lemma {:induction false} ProposedFailureStays(allocs: seq<Json>, n: nat, fundId: Json, e: string)
    requires 0 < n <= |allocs|
    requires Proposed(allocs[..n], fundId) == Failure(e)
    ensures Proposed(allocs, fundId) == Failure(e)
    decreases |allocs| - n
  {
    if n == |allocs| {
      assert allocs[..n] == allocs;
    } else {
      assert allocs[..n + 1][..n] == allocs[..n];
      ProposedFailureStays(allocs, n + 1, fundId, e);
    }
  }

  /** At most as many entries as tickers. */
  lemma {:induction false} EntriesBound(tickers: seq<Json>, analyze: Analyze)
    ensures |Entries(tickers, analyze)| <= |tickers|
    decreases |tickers|
  {
    if tickers != [] {
      EntriesBound(tickers[..|tickers| - 1], analyze);
    }
  }

  /** A failure swallowed for one ticker does not stop the later ones: the
      entries of two runs of tickers are the entries of each. */
  lemma {:induction false} EntriesConcat(a: seq<Json>, b: seq<Json>, analyze: Analyze)
    ensures Entries(a + b, analyze) == Entries(a, analyze) + Entries(b, analyze)
    decreases |b|
  {
    if b == [] {
      assert a + b == a;
    } else {
      var b' := b[..|b| - 1];
      assert (a + b)[..|a + b| - 1] == a + b';
      assert (a + b)[|a + b| - 1] == b[|b| - 1];
      EntriesConcat(a, b', analyze);
    }
  }

  /** When every analysis yields a thesis dict, there is one entry per ticker,
      in ticker order, naming its ticker. */
  lemma {:induction false} EntriesAllSucceed(tickers: seq<Json>, analyze: Analyze)
    requires forall k :: 0 <= k < |tickers| ==> ThesisEntry(tickers[k], analyze(tickers[k])).Some?
    ensures |Entries(tickers, analyze)| == |tickers|
    ensures forall k :: 0 <= k < |tickers| ==>
              Entries(tickers, analyze)[k] == ThesisEntry(tickers[k], analyze(tickers[k])).value
    decreases |tickers|
  {
    if tickers != [] {
      var init := tickers[..|tickers| - 1];
      assert forall k :: 0 <= k < |init| ==> init[k] == tickers[k];
      EntriesAllSucceed(init, analyze);
    }
  }

  /** The analysing step keeps at most five theses, no more than the tickers it
      was given, and answers with their number. */
  lemma AnalyzingAtMostFive(state: Obj, analyze: Analyze)
    requires Analyzing(state, analyze).Success?
    ensures var o := Analyzing(state, analyze).value;
            && o.response["theses"].JArr? && |o.response["theses"].items| <= AnalyzeLimit
            && o.state.Some? && o.state.value["theses"] == o.response["theses"]
            && o.response["message"] == JStr("Analyzed " + NatToString(|o.response["theses"].items|) + " stocks.")
  {
    var tickers := Prefix(Lookup(state, "discovered_stocks", JArr([])), AnalyzeLimit).value;
    EntriesBound(tickers, analyze);
  }

  /** The scouting step keeps at most ten tickers, stores them and answers
      with them and their number. */
  lemma ScoutingAtMostTen(state: Obj, discover: Discover)
    requires Scouting(state, discover).Success?
    ensures var o := Scouting(state, discover).value;
            && o.response["stocks"].JArr? && |o.response["stocks"].items| <= HotLimit
            && o.state.Some? && o.state.value["discovered_stocks"] == o.response["stocks"]
            && o.response["message"]
               == JStr("Found " + NatToString(|o.response["stocks"].items|) + " promising stocks to analyze.")
  {
  }

  /** For a hot list of dicts, the tickers are those of its first ten entries, in order. */
  lemma HotTickersOfList(discovery: Json, hot: seq<Json>)
    requires discovery.JObj? && "universe" in discovery.fields
    requires discovery.fields["universe"].JObj? && "hot" in discovery.fields["universe"].fields
    requires discovery.fields["universe"].fields["hot"] == JArr(hot)
    requires forall k :: 0 <= k < |hot| ==> hot[k].JObj?
    ensures HotTickers(discovery).Success?
    ensures var ts := HotTickers(discovery).value;
            && |ts| == (if |hot| < HotLimit then |hot| else HotLimit)
            && forall k :: 0 <= k < |ts| ==> ts[k] == Lookup(hot[k].fields, "ticker", JNull)
  {
    var top := Prefix(JArr(hot), HotLimit).value;
    assert forall k :: 0 <= k < |top| ==> top[k] == hot[k];
  }

  /** Every step moves the workflow on: scouting to "discovered", analyzing
      to "analyzed", building to "complete"; any other action writes no
      state.  The keys a step does not set are kept, so the fund parameters
      and the fund id reach the later steps. */
  lemma PhaseProgression(rec: Record, funds: seq<FundRow>, action: string,
                         discover: Discover, analyze: Analyze, pm: Manager)
    requires Step(rec, funds, action, discover, analyze, pm).Success?
    ensures var o := Step(rec, funds, action, discover, analyze, pm).value;
            && (action == "scouting" ==> o.state.Some? && o.state.value["phase"] == JStr("discovered"))
            && (action == "analyzing" ==> o.state.Some? && o.state.value["phase"] == JStr("analyzed"))
            && (action == "building_portfolio" ==> o.state.Some? && o.state.value["phase"] == JStr("complete"))
            && (action != "scouting" && action != "analyzing" && action != "building_portfolio" ==> o.state.None?)
    ensures var o := Step(rec, funds, action, discover, analyze, pm).value;
            o.state.Some? ==>
              forall k :: (k in LoadedState(rec) && k != "phase" && k != "discovered_stocks" && k != "theses"
                           && k != "proposed_portfolio") ==> k in o.state.value && o.state.value[k] == LoadedState(rec)[k]
  {
    var state := LoadedState(rec);
    if action == "building_portfolio" {
      var context := ManagerContext(state).value;
      var portfolio := pm(context).value;
      assert Step(rec, funds, action, discover, analyze, pm) == Built(state, funds, portfolio);
    }
  }

  /** Any action other than the three steps (`confirm_trade` among them)
      answers "unknown_action" and leaves every table as it was. */
  lemma UnknownActionChangesNothing(conversations: map<string, Record>, funds: seq<FundRow>,
                                    positions: seq<PositionRow>, id: string, action: string,
                                    discover: Discover, analyze: Analyze, pm: Manager, r: Result<Obj, HttpError>,
                                    conversations': map<string, Record>, funds': seq<FundRow>,
                                    positions': seq<PositionRow>)
    requires id in conversations
    requires action != "scouting" && action != "analyzing" && action != "building_portfolio"
    requires Executed(Execute(conversations, funds, id, action, discover, analyze, pm), id, r,
                      conversations, funds, positions, conversations', funds', positions')
    ensures r == Success(map["status" := JStr("unknown_action"), "action" := JStr(action)])
    ensures conversations' == conversations && funds' == funds && positions' == positions
  {
    assert conversations[id].(state := conversations[id].state) == conversations[id];
    assert positions + [] == positions;
  }

  /** A missing conversation is answered 404 "Conversation not found" and
      changes nothing. */
  lemma MissingConversation(conversations: map<string, Record>, funds: seq<FundRow>,
                            positions: seq<PositionRow>, id: string, action: string,
                            discover: Discover, analyze: Analyze, pm: Manager, r: Result<Obj, HttpError>,
                            conversations': map<string, Record>, funds': seq<FundRow>,
                            positions': seq<PositionRow>)
    requires id !in conversations
    requires Executed(Execute(conversations, funds, id, action, discover, analyze, pm), id, r,
                      conversations, funds, positions, conversations', funds', positions')
    ensures r == Failure(HttpError(404, NotFoundDetail))
    ensures conversations' == conversations && funds' == funds && positions' == positions
  {
  }

  /** As written, the same request is answered 500 with detail
      "404: Conversation not found". */
  lemma MissingConversationAsWritten(conversations: map<string, Record>, funds: seq<FundRow>, id: string,
                                     action: string, discover: Discover, analyze: Analyze, pm: Manager)
    requires id !in conversations
    ensures Execute(conversations, funds, id, action, discover, analyze, pm) == Failure(NotFound)
    ensures HttpErrorAsWritten(NotFound) == HttpError(500, "404: " + NotFoundDetail)
    ensures HttpErrorOf(NotFound) != HttpErrorAsWritten(NotFound)
  {
  }

  /** How many allocations make a position: the dicts with a truthy ticker. */
  function TruthyTickers(allocs: seq<Json>): nat
    decreases |allocs|
  {
    if allocs == [] then 0
    else
      var a := allocs[|allocs| - 1];
      TruthyTickers(allocs[..|allocs| - 1])
      + if a.JObj? && Truthy(Lookup(a.fields, "ticker", JNull)) then 1 else 0
  }

  /** The building loop makes one "proposed" position of the fund per
      allocation with a truthy ticker. */
  lemma {:induction false} ProposedPositions(allocs: seq<Json>, fundId: Json)
    requires Proposed(allocs, fundId).Success?
    ensures |Proposed(allocs, fundId).value| == TruthyTickers(allocs)
    ensures forall k :: 0 <= k < |Proposed(allocs, fundId).value| ==>
              var p := Proposed(allocs, fundId).value[k];
              p.status == "proposed" && p.fundId == fundId && Truthy(p.ticker)
    decreases |allocs|
  {
    if allocs != [] {
      ProposedPositions(allocs[..|allocs| - 1], fundId);
    }
  }

  /** An allocation without a weight gets 0.05 as both weights; one without a
      company name is named by its ticker. */
  lemma AllocationDefaults(alloc: Json, fundId: Json)
    requires alloc.JObj? && Truthy(Lookup(alloc.fields, "ticker", JNull))
    ensures Allocation(alloc, fundId).Success? && Allocation(alloc, fundId).value.Some?
    ensures var p := Allocation(alloc, fundId).value.value;
            && p.ticker == alloc.fields["ticker"]
            && ("weight" !in alloc.fields ==> p.targetWeight == JNum(0.05) && p.currentWeight == JNum(0.05))
            && ("company" !in alloc.fields && "company_name" !in alloc.fields ==> p.companyName == p.ticker)
  {
  }

  /** Positions are created and the fund activated only when both the fund
      id and the portfolio are truthy. */
  lemma BuildNeedsFundAndPortfolio(state: Obj, funds: seq<FundRow>, portfolio: Json)
    requires !Truthy(Lookup(state, "fund_id", JNull)) || !Truthy(portfolio)
    ensures Built(state, funds, portfolio).Success?
    ensures Built(state, funds, portfolio).value.positions == []
    ensures Built(state, funds, portfolio).value.activated.None?
  {
  }

  /** With both truthy, the positions are those of the allocations and the
      fund with that id, if there is one, becomes "active". */
  lemma BuildActivatesFund(state: Obj, funds: seq<FundRow>, portfolio: Json, k: nat)
    requires Built(state, funds, portfolio).Success?
    requires Truthy(Lookup(state, "fund_id", JNull)) && Truthy(portfolio)
    requires k < |funds| && Lookup(state, "fund_id", JNull) == JStr(funds[k].id)
    ensures var o := Built(state, funds, portfolio).value;
            o.activated.Some? && funds[o.activated.value].id == funds[k].id
  {
  }

  /** As written, a scouting step on a conversation whose state is already
      set (as `create_fund` leaves it) answers with the new tickers but the
      stored state keeps its old phase; the intended store has "discovered". */
  lemma ScoutingLostAsWritten(rec: Record, funds: seq<FundRow>, discover: Discover, analyze: Analyze,
                              pm: Manager)
    requires rec.state.Some? && "phase" in rec.state.value && rec.state.value["phase"] == JStr("scouting")
    requires Step(rec, funds, "scouting", discover, analyze, pm).Success?
    ensures var o := Step(rec, funds, "scouting", discover, analyze, pm).value;
            && StoredStateAsWritten(rec, o) == rec.state
            && StoredStateAsWritten(rec, o).value["phase"] == JStr("scouting")
            && StoredState(rec, o).value["phase"] == JStr("discovered")
  {
    assert rec.state.value != map[];
  }

  /** As written, the analysing step after such a scouting step finds no
      discovered stocks when the state had none before: it analyses nothing. */
  lemma AnalyzingAfterLostScouting(rec: Record, funds: seq<FundRow>, discover: Discover, analyze: Analyze,
                                   pm: Manager)
    requires rec.state.Some? && rec.state.value != map[] && "discovered_stocks" !in rec.state.value
    requires Step(rec, funds, "scouting", discover, analyze, pm).Success?
    ensures var o := Step(rec, funds, "scouting", discover, analyze, pm).value;
            Step(rec.(state := StoredStateAsWritten(rec, o)), funds, "analyzing", discover, analyze, pm)
            == Success(Analyzed(rec.state.value, []))
  {
  }

  /** With the intended store, the analysing step after a scouting step works
      on the first five of the tickers the scouting step found. */
  lemma ScoutedStocksReachAnalysis(rec: Record, funds: seq<FundRow>, discover: Discover, analyze: Analyze,
                                   pm: Manager)
    requires Step(rec, funds, "scouting", discover, analyze, pm).Success?
    ensures var o := Step(rec, funds, "scouting", discover, analyze, pm).value;
            var tickers := o.response["stocks"].items;
            Step(rec.(state := StoredState(rec, o)), funds, "analyzing", discover, analyze, pm)
            == Success(Analyzed(o.state.value, Entries(tickers[..if |tickers| < AnalyzeLimit then |tickers| else AnalyzeLimit], analyze)))
  {
    var o := Step(rec, funds, "scouting", discover, analyze, pm).value;
    var state := o.state.value;
    assert LoadedState(rec.(state := StoredState(rec, o))) == state;
    assert Lookup(state, "discovered_stocks", JArr([])) == o.response["stocks"];
  }
}
