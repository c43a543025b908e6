/** The daily scheduler jobs (backend/scheduler/jobs/daily.py): monitoring every
    active position for material news, and refreshing the price of every
    active ticker from a search reply.  The position monitor agent and the
    search client are parameters; their failures are the exceptions the jobs
    catch. */
module DailyJobs {
  import opened Wrappers
  import opened JsonValues
  import opened Text
  import opened Store

  /** The position monitor agent, given the position's ticker and weight. */
  type Monitor = (Json, real) -> Result<Json, string>

  /** The search client, given the question it is asked. */
  type Search = string -> Result<Json, string>

  const CriticalOptions: seq<string> := ["hold", "review", "trim", "sell"]

  // ---------------------------------------------------------------------
  // Position monitoring

  /** `f"{summary[:100]}"`: a string keeps its first 100 characters, a list its
      first 100 items (then printed); anything else cannot be sliced. */
  function SummaryText(summary: Json, repr: Json -> string): (r: Result<string, string>)
    ensures summary.JStr? ==> r == Success(Take(summary.s, 100))
    ensures r.Success? <==> summary.JStr? || summary.JArr?
  {
    match summary
    case JStr(s) => Success(Take(s, 100))
    case JArr(items) => Success(repr(JArr(if |items| <= 100 then items else items[..100])))
    case _ => Failure("TypeError: object is not subscriptable")
  }

  /** One pass of the monitoring loop's `try`: the alert for a position, none
      when the level is neither "warning" nor "critical", or the exception. */
  function AlertFor(fundId: string, p: PositionRow, agent: Monitor, repr: Json -> string)
    : (r: Result<Option<AlertRow>, string>)
    ensures r.Success? && r.value.Some? ==>
              var a := r.value.value;
              && (a.severity == "warning" || a.severity == "critical")
              && (a.actionRequired <==> a.severity == "critical")
              && a.actionOptions == (if a.severity == "critical" then Some(CriticalOptions) else None)
              && a.fundId == fundId && a.kind == "news" && a.ticker == p.ticker
  {
    match FloatOr0(p.targetWeight)
    case Failure(e) => Failure(e)
    case Success(w) =>
      match agent(p.ticker, w)
      case Failure(e) => Failure(e)
      case Success(result) =>
        match Get(result, "alert_level", JStr("info"))
        case Failure(e) => Failure(e)
        case Success(level) =>
          if level != JStr("warning") && level != JStr("critical") then Success(None)
          else
            var m := result.fields;
            match SummaryText(Lookup(m, "summary", JStr("Material event detected")), repr)
            case Failure(e) => Failure(e)
            case Success(text) =>
              var critical := level.s == "critical";
              Success(Some(AlertRow(fundId, "news", p.ticker, PyStr(p.ticker, repr) + ": " + text,
                                    Lookup(m, "summary", JStr("")), level.s, critical,
                                    if critical then Some(CriticalOptions) else None)))
  }

  /** The alerts raised for one fund's positions, in position order. */
  function PositionAlerts(fundId: string, ps: seq<PositionRow>, agent: Monitor, repr: Json -> string)
    : (r: seq<AlertRow>)
    ensures |r| <= |ps|
    decreases |ps|
  {
    if ps == [] then []
    else PositionAlerts(fundId, ps[..|ps| - 1], agent, repr) + Raised(AlertFor(fundId, ps[|ps| - 1], agent, repr))
  }

  /** The alert a pass adds to the session: one, or none. */
  function Raised(r: Result<Option<AlertRow>, string>): (alerts: seq<AlertRow>)
    ensures |alerts| <= 1
  {
    if r.Success? && r.value.Some? then [r.value.value] else []
  }

  /** The alerts raised for each fund's active positions, fund after fund. */
  function FundAlerts(funds: seq<FundRow>, positions: seq<PositionRow>, agent: Monitor, repr: Json -> string)
    : (r: seq<AlertRow>)
    ensures |r| <= |Visits(funds, positions)|
    decreases |funds|
  {
    if funds == [] then []
    else
      var f := funds[|funds| - 1];
      FundAlerts(funds[..|funds| - 1], positions, agent, repr)
      + PositionAlerts(f.id, ActivePositions(positions, f.id), agent, repr)
  }

  /** The inner monitoring loop over one fund's positions. */
  method MonitorFund(fundId: string, active: seq<PositionRow>, agent: Monitor, repr: Json -> string)
    returns (alerts: seq<AlertRow>, created: nat)
    ensures alerts == PositionAlerts(fundId, active, agent, repr)
    ensures created == |alerts|
  {
    alerts := [];
    created := 0;
    var j := 0;
    while j < |active|
      invariant 0 <= j <= |active|
      invariant alerts == PositionAlerts(fundId, active[..j], agent, repr)
      invariant created == |alerts|
    {
      assert active[..j + 1][..j] == active[..j];
      var alert := AlertFor(fundId, active[j], agent, repr);
      if alert.Success? && alert.value.Some? {
        alerts := alerts + [alert.value.value];
        created := created + 1;
      }
      j := j + 1;
    }
    assert active[..j] == active;
  }

  /** The outer monitoring loop: the alerts in the order they are added to the
      session, and the counter beside them. */
  method CollectAlerts(funds: seq<FundRow>, positions: seq<PositionRow>, agent: Monitor, repr: Json -> string)
    returns (added: seq<AlertRow>, created: nat)
    ensures added == FundAlerts(funds, positions, agent, repr)
    ensures created == |added|
  {
    added := [];
    created := 0;
    var i := 0;
    while i < |funds|
      invariant 0 <= i <= |funds|
      invariant added == FundAlerts(funds[..i], positions, agent, repr)
      invariant created == |added|
    {
      assert funds[..i + 1][..i] == funds[..i];
      var alerts, n := MonitorFund(funds[i].id, ActivePositions(positions, funds[i].id), agent, repr);
      added := added + alerts;
      created := created + n;
      i := i + 1;
    }
    assert funds[..i] == funds;
  }

  /** `_monitor_all_positions`: the alerts are added to the session one by one
      and committed at the end; the counter is the number added. */
  method MonitorAllPositions(db: Database, agent: Monitor, repr: Json -> string) returns (r: Obj)
    modifies db
    ensures var added := FundAlerts(ActiveFunds(old(db.funds)), old(db.positions), agent, repr);
            && db.alerts == old(db.alerts) + added
            && r == map["status" := JStr("complete"), "alerts_created" := JNum(|added| as real)]
    ensures db.funds == old(db.funds) && db.positions == old(db.positions) && db.theses == old(db.theses)
    ensures db.riskReports == old(db.riskReports) && db.conversations == old(db.conversations)
  {
    var added, created := CollectAlerts(ActiveFunds(db.funds), db.positions, agent, repr);
    db.alerts := db.alerts + added;
    r := map["status" := JStr("complete"), "alerts_created" := JNum(created as real)];
  }

  // ---------------------------------------------------------------------
  // Price extraction: the first match of `\$?([\d,]+\.?\d*)` in the reply

  predicate NumChar(c: char) {
    IsDigit(c) || c == ','
  }

  /** The first digit or comma at or after `i`. */
  function FirstNumChar(s: string, i: nat): (r: Option<nat>)
    requires i <= |s|
    ensures r.Some? ==> i <= r.value < |s| && NumChar(s[r.value])
    ensures r.Some? ==> forall k :: i <= k < r.value ==> !NumChar(s[k])
    ensures r.None? ==> forall k :: i <= k < |s| ==> !NumChar(s[k])
    decreases |s| - i
  {
    if i == |s| then None
    else if NumChar(s[i]) then Some(i)
    else FirstNumChar(s, i + 1)
  }

  /** Where the greedy run of digits (and commas, when `commas`) from `i` ends. */
  function RunEnd(s: string, i: nat, commas: bool): (r: nat)
    requires i <= |s|
    ensures i <= r <= |s|
    ensures forall k :: i <= k < r ==> IsDigit(s[k]) || (commas && s[k] == ',')
    ensures r < |s| ==> !IsDigit(s[r]) && !(commas && s[r] == ',')
    decreases |s| - i
  {
    if i == |s| || !(IsDigit(s[i]) || (commas && s[i] == ',')) then i
    else RunEnd(s, i + 1, commas)
  }

  /** The regular expression's group: it starts at the first digit or comma (a
      "$" just before it is optional and left out either way), runs over digits
      and commas, then takes a "." and the digits after it when they follow. */
  function PriceMatch(s: string): (r: Option<string>)
    ensures r.None? <==> forall k :: 0 <= k < |s| ==> !NumChar(s[k])
    ensures r.Some? ==> r.value != [] && NumChar(r.value[0])
  {
    match FirstNumChar(s, 0)
    case None => None
    case Some(i) =>
      var j := RunEnd(s, i, true);
      var e := if j < |s| && s[j] == '.' then RunEnd(s, j + 1, false) else j;
      Some(s[i..e])
  }

  /** `response.get("text", "")`, searched, with the commas of the match removed
      and read by `float()`: no match gives no price, a match that does not read
      as a number raises `ValueError`. */
  function Quote(response: Result<Json, string>): (r: Result<Option<real>, string>)
  {
    match response
    case Failure(e) => Failure(e)
    case Success(reply) =>
      match Get(reply, "text", JStr(""))
      case Failure(e) => Failure(e)
      case Success(text) =>
        if !text.JStr? then Failure("TypeError: expected string or bytes-like object")
        else match PriceMatch(text.s)
          case None => Success(None)
          case Some(g) =>
            match ParseDecimal(RemoveChar(g, ','))
            case None => Failure("ValueError: could not convert string to float")
            case Some(v) => Success(Some(v))
  }

  /** A failed search fails with its own error; a reply that is not a dict has
      no `.get` and raises. */
  lemma QuoteFailures(response: Result<Json, string>)
    ensures response.Failure? ==> Quote(response) == Failure(response.error)
    ensures response.Success? && !response.value.JObj? ==> Quote(response).Failure?
  {
  }

  /** There is no price exactly when the reply is a dict whose text holds no
      digit and no comma. */
  lemma NoPriceExactly(response: Result<Json, string>)
    ensures Quote(response) == Success(None) <==>
              && response.Success? && response.value.JObj?
              && Lookup(response.value.fields, "text", JStr("")).JStr?
              && PriceMatch(Lookup(response.value.fields, "text", JStr("")).s).None?
  {
  }

  /** The question asked for a ticker. */
  function Prompt(ticker: Json, repr: Json -> string): string {
    "What is the current stock price of " + PyStr(ticker, repr) + "? Just give me the price number."
  }

  /** The price found for a ticker; a caught exception and a reply without a
      number both leave it unknown. */
  function PriceOf(ticker: Json, search: Search, repr: Json -> string): Option<real> {
    match Quote(search(Prompt(ticker, repr)))
    case Success(Some(v)) => Some(v)
    case _ => None
  }

  // ---------------------------------------------------------------------
  // Price updates

  /** The tickers of the active positions, in table order. */
  function ActiveTickers(positions: seq<PositionRow>): (r: seq<Json>)
    ensures |r| <= |positions|
    decreases |positions|
  {
    if positions == [] then []
    else
      var p := positions[|positions| - 1];
      ActiveTickers(positions[..|positions| - 1]) + (if p.status == "active" then [p.ticker] else [])
  }

  /** The values Python's `==` tells apart among the list. */
  function KeySet(xs: seq<Json>): (r: set<Json>)
    ensures forall k :: 0 <= k < |xs| ==> Key(xs[k]) in r
    decreases |xs|
  {
    if xs == [] then {} else KeySet(xs[..|xs| - 1]) + {Key(xs[|xs| - 1])}
  }

  predicate DistinctKeys(xs: seq<Json>) {
    forall i, j :: 0 <= i < j < |xs| ==> Key(xs[i]) != Key(xs[j])
  }

  predicate AllHashable(xs: seq<Json>) {
    forall k :: 0 <= k < |xs| ==> Hashable(xs[k])
  }

  /** `list(set(...))`: one value per class of equal values, the first one met. */
  function Distinct(xs: seq<Json>): (r: seq<Json>)
    ensures |r| <= |xs|
    ensures KeySet(r) == KeySet(xs)
    ensures DistinctKeys(r)
    ensures forall k :: 0 <= k < |r| ==> r[k] in xs
    decreases |xs|
  {
    if xs == [] then []
    else
      var init := xs[..|xs| - 1];
      var before := Distinct(init);
      var last := xs[|xs| - 1];
      assert init + [last] == xs;
      DistinctStep(init, last, before);
      if Key(last) in KeySet(before) then before else before + [last]
  }

  /** One step of `Distinct`: the value is kept exactly when its class is new. */
  lemma DistinctStep(init: seq<Json>, last: Json, before: seq<Json>)
    requires |before| <= |init| && KeySet(before) == KeySet(init) && DistinctKeys(before)
    requires forall k :: 0 <= k < |before| ==> before[k] in init
    ensures var xs := init + [last];
      var r := if Key(last) in KeySet(before) then before else before + [last];
      && |r| <= |xs| && KeySet(r) == KeySet(xs) && DistinctKeys(r)
      && forall k :: 0 <= k < |r| ==> r[k] in xs
  {
    KeySetSnoc(init, last);
    MembersSnoc(init, last, before);
    if Key(last) in KeySet(before) {
      assert KeySet(init + [last]) == KeySet(init);
    } else {
      KeySetSnoc(before, last);
      DistinctKeysSnoc(before, last);
    }
  }

  lemma MembersSnoc(init: seq<Json>, last: Json, before: seq<Json>)
    requires forall k :: 0 <= k < |before| ==> before[k] in init
    ensures forall k :: 0 <= k < |before| ==> before[k] in init + [last]
    ensures forall k :: 0 <= k < |before + [last]| ==> (before + [last])[k] in init + [last]
  {
    assert forall k :: 0 <= k < |before| ==> (before + [last])[k] == before[k];
  }

  lemma KeySetSnoc(xs: seq<Json>, x: Json)
    ensures KeySet(xs + [x]) == KeySet(xs) + {Key(x)}
  {
    assert (xs + [x])[..|xs|] == xs;
  }

  lemma DistinctKeysSnoc(xs: seq<Json>, x: Json)
    requires DistinctKeys(xs) && Key(x) !in KeySet(xs)
    ensures DistinctKeys(xs + [x])
  {
    assert forall k :: 0 <= k < |xs| ==> (xs + [x])[k] == xs[k];
  }

  /** The searched ticker is this position's, and the position is active. */
  predicate Matches(p: PositionRow, ticker: Json) {
    p.status == "active" && Key(p.ticker) == Key(ticker)
  }

  /** The inner loop: every active position with the ticker gets the price. */
  function Priced(positions: seq<PositionRow>, ticker: Json, price: real): (r: seq<PositionRow>)
    ensures |r| == |positions|
  {
    seq(|positions|, k requires 0 <= k < |positions| =>
      if Matches(positions[k], ticker) then positions[k].(currentPrice := Some(price)) else positions[k])
  }

  /** The positions after the tickers have been searched one after the other. */
  function Repriced(positions: seq<PositionRow>, tickers: seq<Json>, search: Search, repr: Json -> string)
    : (r: seq<PositionRow>)
    ensures |r| == |positions|
    decreases |tickers|
  {
    if tickers == [] then positions
    else
      var last := tickers[|tickers| - 1];
      var before := Repriced(positions, tickers[..|tickers| - 1], search, repr);
      match PriceOf(last, search, repr)
      case None => before
      case Some(v) => Priced(before, last, v)
  }

  /** `updated`: the tickers whose price was found. */
  function UpdatedCount(tickers: seq<Json>, search: Search, repr: Json -> string): (r: nat)
    ensures r <= |tickers|
    decreases |tickers|
  {
    if tickers == [] then 0
    else
      UpdatedCount(tickers[..|tickers| - 1], search, repr)
      + if PriceOf(tickers[|tickers| - 1], search, repr).Some? then 1 else 0
  }

  /** `session.commit()` of one ticker's price, written to its positions. */
  method WritePrice(db: Database, ticker: Json, price: real)
    modifies db
    ensures db.positions == Priced(old(db.positions), ticker, price)
    ensures db.funds == old(db.funds) && db.alerts == old(db.alerts) && db.theses == old(db.theses)
    ensures db.riskReports == old(db.riskReports) && db.conversations == old(db.conversations)
  {
    ghost var before := db.positions;
    var k := 0;
    while k < |db.positions|
      invariant 0 <= k <= |db.positions| == |before|
      invariant forall m :: 0 <= m < k ==> db.positions[m] == Priced(before, ticker, price)[m]
      invariant forall m :: k <= m < |before| ==> db.positions[m] == before[m]
      invariant db.funds == old(db.funds) && db.alerts == old(db.alerts) && db.theses == old(db.theses)
      invariant db.riskReports == old(db.riskReports) && db.conversations == old(db.conversations)
    {
      if Matches(db.positions[k], ticker) {
        db.positions := db.positions[k := db.positions[k].(currentPrice := Some(price))];
      }
      k := k + 1;
    }
  }

  /** The loop over the unique tickers: each is searched, and a price found is
      written to its positions and counted. */
  method Reprice(db: Database, unique: seq<Json>, search: Search, repr: Json -> string) returns (updated: nat)
    modifies db
    ensures db.positions == Repriced(old(db.positions), unique, search, repr)
    ensures updated == UpdatedCount(unique, search, repr)
    ensures db.funds == old(db.funds) && db.alerts == old(db.alerts) && db.theses == old(db.theses)
    ensures db.riskReports == old(db.riskReports) && db.conversations == old(db.conversations)
  {
    updated := 0;
    var i := 0;
    while i < |unique|
      invariant 0 <= i <= |unique|
      invariant db.positions == Repriced(old(db.positions), unique[..i], search, repr)
      invariant updated == UpdatedCount(unique[..i], search, repr)
      invariant db.funds == old(db.funds) && db.alerts == old(db.alerts) && db.theses == old(db.theses)
      invariant db.riskReports == old(db.riskReports) && db.conversations == old(db.conversations)
    {
      RepricedStep(old(db.positions), unique, i, search, repr);
      ghost var q := Quote(search(Prompt(unique[i], repr)));
      ghost var before := Repriced(old(db.positions), unique[..i], search, repr);
      var found := RepriceTicker(db, unique[i], search, repr);
      assert db.positions == if found then Priced(before, unique[i], q.value.value) else before;
      if found {
        updated := updated + 1;
      }
      i := i + 1;
    }
    assert unique[..i] == unique;
  }

  /** One pass of that loop: search the ticker, and write a price found. */
  method RepriceTicker(db: Database, ticker: Json, search: Search, repr: Json -> string) returns (found: bool)
    modifies db
    ensures var q := Quote(search(Prompt(ticker, repr)));
      && found == (q.Success? && q.value.Some?)
      && db.positions == if found then Priced(old(db.positions), ticker, q.value.value) else old(db.positions)
    ensures db.funds == old(db.funds) && db.alerts == old(db.alerts) && db.theses == old(db.theses)
    ensures db.riskReports == old(db.riskReports) && db.conversations == old(db.conversations)
  {
    var reply := search(Prompt(ticker, repr));
    var quote := Quote(reply);
    found := quote.Success? && quote.value.Some?;
    if found {
      WritePrice(db, ticker, quote.value.value);
    }
  }

  lemma RepricedStep(positions: seq<PositionRow>, tickers: seq<Json>, i: nat, search: Search, repr: Json -> string)
    requires i < |tickers|
    ensures var q := Quote(search(Prompt(tickers[i], repr)));
            && Repriced(positions, tickers[..i + 1], search, repr)
               == (if q.Success? && q.value.Some? then Priced(Repriced(positions, tickers[..i], search, repr), tickers[i], q.value.value)
                   else Repriced(positions, tickers[..i], search, repr))
            && UpdatedCount(tickers[..i + 1], search, repr)
               == UpdatedCount(tickers[..i], search, repr) + (if q.Success? && q.value.Some? then 1 else 0)
  {
    assert tickers[..i + 1][..i] == tickers[..i];
  }

  /** `_update_all_prices`: a ticker that cannot be put in a set stops the job
      before anything is written; otherwise every unique ticker is searched. */
  method UpdateAllPrices(db: Database, search: Search, repr: Json -> string) returns (r: Result<Obj, string>)
    modifies db
    ensures var tickers := ActiveTickers(old(db.positions));
            if !AllHashable(tickers) then r.Failure? && db.positions == old(db.positions)
            else
              var unique := Distinct(tickers);
              && db.positions == Repriced(old(db.positions), unique, search, repr)
              && r == Success(map["status" := JStr("complete"),
                                  "updated" := JNum(UpdatedCount(unique, search, repr) as real)])
    ensures db.funds == old(db.funds) && db.alerts == old(db.alerts) && db.theses == old(db.theses)
    ensures db.riskReports == old(db.riskReports) && db.conversations == old(db.conversations)
  {
    var tickers := ActiveTickers(db.positions);
    if !AllHashable(tickers) {
      return Failure("TypeError: unhashable type");
    }
    var unique := Distinct(tickers);
    var updated := Reprice(db, unique, search, repr);
    r := Success(map["status" := JStr("complete"), "updated" := JNum(updated as real)]);
  }

  // ---------------------------------------------------------------------
  // Properties of the monitoring job

  /** Once the weight converts and the agent answers with a dict, an alert is
      raised exactly for the levels "warning" and "critical" (a missing level
      reads "info"); its title is the ticker and the first 100 characters of the
      summary. */
  lemma AlertLevelRule(fundId: string, p: PositionRow, agent: Monitor, repr: Json -> string, w: real, m: Obj)
    requires FloatOr0(p.targetWeight) == Success(w) && agent(p.ticker, w) == Success(JObj(m))
    ensures var level := Lookup(m, "alert_level", JStr("info"));
            && (level != JStr("warning") && level != JStr("critical") ==> AlertFor(fundId, p, agent, repr) == Success(None))
            && (AlertFor(fundId, p, agent, repr).Success? && AlertFor(fundId, p, agent, repr).value.Some? ==>
                  level == JStr("warning") || level == JStr("critical"))
    ensures "alert_level" !in m ==> AlertFor(fundId, p, agent, repr) == Success(None)
    ensures var level := Lookup(m, "alert_level", JStr("info"));
            var summary := Lookup(m, "summary", JStr("Material event detected"));
            (level == JStr("warning") || level == JStr("critical")) && summary.JStr? ==>
              AlertFor(fundId, p, agent, repr)
              == Success(Some(AlertRow(fundId, "news", p.ticker, PyStr(p.ticker, repr) + ": " + Take(summary.s, 100),
                                       Lookup(m, "summary", JStr("")), level.s, level.s == "critical",
                                       if level.s == "critical" then Some(CriticalOptions) else None)))
  {
  }

  lemma {:induction false} PositionAlertsConcat(fundId: string, ps: seq<PositionRow>, qs: seq<PositionRow>,
                                                agent: Monitor, repr: Json -> string)
    ensures PositionAlerts(fundId, ps + qs, agent, repr)
            == PositionAlerts(fundId, ps, agent, repr) + PositionAlerts(fundId, qs, agent, repr)
    decreases |qs|
  {
    if qs == [] {
      assert ps + qs == ps;
      assert PositionAlerts(fundId, ps, agent, repr) + [] == PositionAlerts(fundId, ps, agent, repr);
    } else {
      var init := qs[..|qs| - 1];
      assert (ps + qs)[..|ps + qs| - 1] == ps + init;
      assert (ps + qs)[|ps + qs| - 1] == qs[|qs| - 1];
      PositionAlertsConcat(fundId, ps, init, agent, repr);
    }
  }

  /** A position whose check raised adds no alert and does not stop the
      positions after it. */
  lemma FailedPositionSkipped(fundId: string, ps: seq<PositionRow>, p: PositionRow, qs: seq<PositionRow>,
                              agent: Monitor, repr: Json -> string)
    requires AlertFor(fundId, p, agent, repr).Failure?
    ensures PositionAlerts(fundId, ps + [p] + qs, agent, repr)
            == PositionAlerts(fundId, ps, agent, repr) + PositionAlerts(fundId, qs, agent, repr)
  {
    PositionAlertsConcat(fundId, ps + [p], qs, agent, repr);
    assert (ps + [p])[..|ps + [p]| - 1] == ps;
    assert PositionAlerts(fundId, ps + [p], agent, repr) == PositionAlerts(fundId, ps, agent, repr) + [];
    assert PositionAlerts(fundId, ps, agent, repr) + [] == PositionAlerts(fundId, ps, agent, repr);
  }

  /** Every alert of the job is a warning or a critical one, needs action
      exactly when critical, and belongs to one of the active funds. */
  lemma {:induction false} MonitorAlertsShape(funds: seq<FundRow>, positions: seq<PositionRow>,
                                              agent: Monitor, repr: Json -> string)
    ensures forall a :: a in FundAlerts(funds, positions, agent, repr) ==>
              && (a.severity == "warning" || a.severity == "critical")
              && (a.actionRequired <==> a.severity == "critical")
              && (exists f :: f in funds && f.id == a.fundId)
    decreases |funds|
  {
    if funds != [] {
      var f := funds[|funds| - 1];
      MonitorAlertsShape(funds[..|funds| - 1], positions, agent, repr);
      PositionAlertsShape(f.id, ActivePositions(positions, f.id), agent, repr);
      assert f in funds;
      forall g | g in funds[..|funds| - 1] ensures g in funds {
      }
    }
  }

  lemma {:induction false} PositionAlertsShape(fundId: string, ps: seq<PositionRow>, agent: Monitor, repr: Json -> string)
    ensures forall a :: a in PositionAlerts(fundId, ps, agent, repr) ==>
              && (a.severity == "warning" || a.severity == "critical")
              && (a.actionRequired <==> a.severity == "critical")
              && a.fundId == fundId
    decreases |ps|
  {
    if ps != [] {
      PositionAlertsShape(fundId, ps[..|ps| - 1], agent, repr);
    }
  }

  // ---------------------------------------------------------------------
  // Which positions the monitoring visits

  /** One pass of the inner loop: the fund it is for and the position it checks. */
  datatype Visit = Visit(fundId: string, position: PositionRow)

  /** The passes over one fund's positions, in order. */
  function Tagged(fundId: string, ps: seq<PositionRow>): (r: seq<Visit>)
    ensures |r| == |ps|
    decreases |ps|
  {
    if ps == [] then [] else Tagged(fundId, ps[..|ps| - 1]) + [Visit(fundId, ps[|ps| - 1])]
  }

  /** The passes of both loops, fund after fund. */
  function Visits(funds: seq<FundRow>, positions: seq<PositionRow>): seq<Visit>
    decreases |funds|
  {
    if funds == [] then []
    else
      var f := funds[|funds| - 1];
      Visits(funds[..|funds| - 1], positions) + Tagged(f.id, ActivePositions(positions, f.id))
  }

  /** The alerts the passes raise, in order. */
  function AlertsOf(vs: seq<Visit>, agent: Monitor, repr: Json -> string): (r: seq<AlertRow>)
    ensures |r| <= |vs|
    decreases |vs|
  {
    if vs == [] then []
    else
      var v := vs[|vs| - 1];
      AlertsOf(vs[..|vs| - 1], agent, repr) + Raised(AlertFor(v.fundId, v.position, agent, repr))
  }

  lemma {:induction false} AlertsOfConcat(a: seq<Visit>, b: seq<Visit>, agent: Monitor, repr: Json -> string)
    ensures AlertsOf(a + b, agent, repr) == AlertsOf(a, agent, repr) + AlertsOf(b, agent, repr)
    decreases |b|
  {
    if b == [] {
      assert a + b == a;
    } else {
      var init := b[..|b| - 1];
      assert (a + b)[..|a + b| - 1] == a + init;
      assert (a + b)[|a + b| - 1] == b[|b| - 1];
      AlertsOfConcat(a, init, agent, repr);
    }
  }

  lemma {:induction false} PositionAlertsAreVisits(fundId: string, ps: seq<PositionRow>, agent: Monitor,
                                                   repr: Json -> string)
    ensures PositionAlerts(fundId, ps, agent, repr) == AlertsOf(Tagged(fundId, ps), agent, repr)
    decreases |ps|
  {
    if ps != [] {
      var vs := Tagged(fundId, ps);
      PositionAlertsAreVisits(fundId, ps[..|ps| - 1], agent, repr);
      assert vs[..|vs| - 1] == Tagged(fundId, ps[..|ps| - 1]);
    }
  }

  /** The job's alerts are exactly the alerts of its passes, in order. */
  lemma {:induction false} FundAlertsAreVisits(funds: seq<FundRow>, positions: seq<PositionRow>, agent: Monitor,
                                               repr: Json -> string)
    ensures FundAlerts(funds, positions, agent, repr) == AlertsOf(Visits(funds, positions), agent, repr)
    decreases |funds|
  {
    if funds != [] {
      var f := funds[|funds| - 1];
      FundAlertsAreVisits(funds[..|funds| - 1], positions, agent, repr);
      PositionAlertsAreVisits(f.id, ActivePositions(positions, f.id), agent, repr);
      AlertsOfConcat(Visits(funds[..|funds| - 1], positions), Tagged(f.id, ActivePositions(positions, f.id)), agent, repr);
    }
  }

  lemma {:induction false} TaggedCount(fundId: string, ps: seq<PositionRow>, v: Visit)
    ensures multiset(Tagged(fundId, ps))[v] == if v.fundId == fundId then multiset(ps)[v.position] else 0
    decreases |ps|
  {
    if ps != [] {
      var init, last := ps[..|ps| - 1], ps[|ps| - 1];
      TaggedCount(fundId, init, v);
      assert ps == init + [last];
      assert multiset(ps) == multiset(init) + multiset([last]);
      assert multiset(Tagged(fundId, ps)) == multiset(Tagged(fundId, init)) + multiset([Visit(fundId, last)]);
    }
  }

  /** A pass for fund id `id` and row `p` happens once per fund with that id,
      times the row's occurrences, and only for an active row of that fund. */
  lemma {:induction false} VisitCount(funds: seq<FundRow>, positions: seq<PositionRow>, id: string, p: PositionRow)
    ensures multiset(Visits(funds, positions))[Visit(id, p)]
            == Times(IdCount(funds, id), if Selected(p, id) then multiset(positions)[p] else 0)
    decreases |funds|
  {
    if funds != [] {
      var init, f := funds[..|funds| - 1], funds[|funds| - 1];
      var c := if Selected(p, id) then multiset(positions)[p] else 0;
      VisitCount(init, positions, id, p);
      VisitsSnocCount(funds, positions, Visit(id, p));
      FundVisitCount(f, positions, id, p);
      IdCountSnoc(funds, id);
      TimesStep(IdCount(init, id), c, f.id == id);
    }
  }

  /** How often one fund's pass visits a given position. */
  lemma FundVisitCount(f: FundRow, positions: seq<PositionRow>, id: string, p: PositionRow)
    ensures multiset(Tagged(f.id, ActivePositions(positions, f.id)))[Visit(id, p)]
            == if f.id == id && Selected(p, id) then multiset(positions)[p] else 0
  {
    TaggedCount(f.id, ActivePositions(positions, f.id), Visit(id, p));
    if f.id == id {
      ActivePositionsCount(positions, id, p);
    }
  }

  lemma TimesStep(n: nat, c: nat, add: bool)
    ensures Times(n + (if add then 1 else 0), c) == Times(n, c) + (if add then c else 0)
  {
  }

  lemma VisitsSnocCount(funds: seq<FundRow>, positions: seq<PositionRow>, v: Visit)
    requires funds != []
    ensures var f := funds[|funds| - 1];
            multiset(Visits(funds, positions))[v]
            == multiset(Visits(funds[..|funds| - 1], positions))[v] + multiset(Tagged(f.id, ActivePositions(positions, f.id)))[v]
  {
  }

  lemma IdCountSnoc(funds: seq<FundRow>, id: string)
    requires funds != []
    ensures IdCount(funds, id) == IdCount(funds[..|funds| - 1], id) + if funds[|funds| - 1].id == id then 1 else 0
  {
    var init, f := funds[..|funds| - 1], funds[|funds| - 1];
    assert funds == init + [f];
    IdCountConcat(init, [f], id);
  }

  /** `n * c`, spelled out. */
  function Times(n: nat, c: nat): nat {
    if n == 0 then 0 else c + Times(n - 1, c)
  }

  /** Every active position of every active fund is checked exactly once by
      `_monitor_all_positions` (as often as the row occurs), and no other row
      is checked for that fund. */
  lemma EveryActivePositionMonitoredOnce(funds: seq<FundRow>, positions: seq<PositionRow>, f: FundRow, p: PositionRow)
    requires UniqueIds(funds) && f in funds && f.status == "active"
    ensures Selected(p, f.id) ==>
              multiset(Visits(ActiveFunds(funds), positions))[Visit(f.id, p)] == multiset(positions)[p]
    ensures !Selected(p, f.id) ==> Visit(f.id, p) !in Visits(ActiveFunds(funds), positions)
  {
    ActiveFundOnce(funds, f);
    VisitCount(ActiveFunds(funds), positions, f.id, p);
  }

  // ---------------------------------------------------------------------
  // Properties of the price extraction

  /** The group found when the first digit or comma is at `i`, its run of digits
      and commas ends at `j`, and the optional fraction ends at `e`. */
  lemma MatchAt(s: string, i: nat, j: nat, e: nat)
    requires i < j <= e <= |s|
    requires forall k :: 0 <= k < i ==> !NumChar(s[k])
    requires forall k :: i <= k < j ==> NumChar(s[k])
    requires j == |s| || !NumChar(s[j])
    requires j < |s| && s[j] == '.' ==>
               j < e && (forall k :: j < k < e ==> IsDigit(s[k])) && (e == |s| || !IsDigit(s[e]))
    requires !(j < |s| && s[j] == '.') ==> e == j
    ensures PriceMatch(s) == Some(s[i..e])
  {
    assert NumChar(s[i]);
    var first := FirstNumChar(s, 0);
    assert first.Some?;
    assert !(first.value < i);
    assert !(first.value > i);
    assert RunEnd(s, i, true) == j;
    if j < |s| && s[j] == '.' {
      assert RunEnd(s, j + 1, false) == e;
    }
  }

  /** "… $123 …": a dollar amount without separators reads as its digits. */
  lemma DollarDigits(a: string, d: string, b: string)
    requires forall k :: 0 <= k < |a| ==> !NumChar(a[k])
    requires d != [] && AllDigits(d)
    requires b == [] || (!NumChar(b[0]) && b[0] != '.')
    ensures Quote(Success(JObj(map["text" := JStr(a + "$" + d + b)]))) == Success(Some(DigitsValue(d) as real))
  {
    var s := a + "$" + d + b;
    var i := |a| + 1;
    assert forall k :: 0 <= k < i ==> s[k] == (a + "$")[k];
    assert forall k :: i <= k < i + |d| ==> s[k] == d[k - i];
    assert i + |d| < |s| ==> s[i + |d|] == b[0];
    MatchAt(s, i, i + |d|, i + |d|);
    assert s[i..i + |d|] == d;
    RemoveCharAbsent(d, ',');
    ParseDigits(d);
    QuoteOf(s, d, DigitsValue(d) as real);
  }

  /** A reply whose group reads as `v` gives the price `v`. */
  lemma QuoteOf(s: string, g: string, v: real)
    requires PriceMatch(s) == Some(g) && ParseDecimal(RemoveChar(g, ',')) == Some(v)
    ensures Quote(Success(JObj(map["text" := JStr(s)]))) == Success(Some(v))
  {
  }

  /** "… $123.45 …": a dollar amount with a fraction reads as that decimal. */
  lemma DollarDecimal(a: string, d: string, f: string, b: string)
    requires forall k :: 0 <= k < |a| ==> !NumChar(a[k])
    requires d != [] && AllDigits(d) && AllDigits(f)
    requires b == [] || !IsDigit(b[0])
    ensures Quote(Success(JObj(map["text" := JStr(a + "$" + d + "." + f + b)]))) == Success(Some(LiteralValue(d, f)))
  {
    var s := a + "$" + d + "." + f + b;
    var g := d + "." + f;
    assert s == (a + "$") + g + b;
    assert forall k :: 0 <= k < |g| ==> g[k] == if k < |d| then d[k] else if k == |d| then '.' else f[k - |d| - 1];
    FractionMatch(a + "$", g, b, |d|);
    FractionAvoids(d, f, ',');
    RemoveCharAbsent(g, ',');
    DecimalLiteral(d, f);
    QuoteOf(s, g, LiteralValue(d, f));
  }

  /** "… $1,234.50 …": the thousands separator is dropped before reading. */
  lemma DollarThousands(a: string, d1: string, d2: string, f: string, b: string)
    requires forall k :: 0 <= k < |a| ==> !NumChar(a[k])
    requires d1 != [] && AllDigits(d1) && d2 != [] && AllDigits(d2) && AllDigits(f)
    requires b == [] || !IsDigit(b[0])
    ensures Quote(Success(JObj(map["text" := JStr(a + "$" + d1 + "," + d2 + "." + f + b)])))
            == Success(Some(LiteralValue(d1 + d2, f)))
  {
    var s := a + "$" + d1 + "," + d2 + "." + f + b;
    var g := d1 + "," + d2 + "." + f;
    assert s == (a + "$") + g + b;
    FractionMatch(a + "$", g, b, |d1| + 1 + |d2|);
    ThousandsGroup(d1, d2, f);
    assert AllDigits(d1 + d2);
    DecimalLiteral(d1 + d2, f);
    QuoteOf(s, g, LiteralValue(d1 + d2, f));
  }

  /** The group of the reply `p + g + b` is `g` when `p` holds no digit or comma,
      `g` holds digits and commas up to a "." at `j` followed by digits, and `b`
      does not go on with a digit. */
  lemma FractionMatch(p: string, g: string, b: string, j: nat)
    requires forall k :: 0 <= k < |p| ==> !NumChar(p[k])
    requires 0 < j < |g| && g[j] == '.'
    requires forall k :: 0 <= k < j ==> NumChar(g[k])
    requires forall k :: j < k < |g| ==> IsDigit(g[k])
    requires b == [] || !IsDigit(b[0])
    ensures PriceMatch(p + g + b) == Some(g)
  {
    var s := p + g + b;
    var i := |p|;
    assert forall k :: 0 <= k < i ==> s[k] == p[k];
    assert forall k :: i <= k < i + |g| ==> s[k] == g[k - i];
    assert i + |g| < |s| ==> s[i + |g|] == b[0];
    MatchAt(s, i, i + j, i + |g|);
    assert s[i..i + |g|] == g;
  }

  /** `d1,d2.f` without its comma is the literal `d1d2.f`. */
  lemma ThousandsGroup(d1: string, d2: string, f: string)
    requires AllDigits(d1) && AllDigits(d2) && AllDigits(f)
    ensures RemoveChar(d1 + "," + d2 + "." + f, ',') == d1 + d2 + "." + f
  {
    var tail := d2 + "." + f;
    FractionAvoids(d2, f, ',');
    DigitsAvoid(d1, ',');
    assert d1 + "," + d2 + "." + f == d1 + [','] + tail;
    RemoveCharSkip(d1, ',', tail);
    assert d1 + tail == d1 + d2 + "." + f;
  }

  /** A reply whose first digit-or-comma is a comma standing alone (a "Sure, …"
      before the amount) matches just that comma, which reads as no number: the
      ticker is not updated and the error is caught. */
  lemma StrayComma(a: string, b: string)
    requires forall k :: 0 <= k < |a| ==> !NumChar(a[k])
    requires b == [] || (!NumChar(b[0]) && b[0] != '.')
    ensures Quote(Success(JObj(map["text" := JStr(a + "," + b)]))).Failure?
  {
    CommaMatch(a, b);
    assert RemoveChar(",", ',') == [];
    assert Strip([]) == [];
    QuoteUnreadable(a + "," + b, ",");
  }

  lemma CommaMatch(a: string, b: string)
    requires forall k :: 0 <= k < |a| ==> !NumChar(a[k])
    requires b == [] || (!NumChar(b[0]) && b[0] != '.')
    ensures PriceMatch(a + "," + b) == Some(",")
  {
    var s := a + "," + b;
    assert forall k :: 0 <= k < |a| ==> s[k] == a[k];
    assert s[|a|] == ',';
    assert |a| + 1 < |s| ==> s[|a| + 1] == b[0];
    MatchAt(s, |a|, |a| + 1, |a| + 1);
    assert s[|a|..|a| + 1] == ",";
  }

  /** A reply whose group does not read as a number raises. */
  lemma QuoteUnreadable(s: string, g: string)
    requires PriceMatch(s) == Some(g) && ParseDecimal(RemoveChar(g, ',')).None?
    ensures Quote(Success(JObj(map["text" := JStr(s)]))).Failure?
  {
  }

  /** The reply "Sure, $250" gives no price. */
  lemma StrayCommaReply(s: string)
    requires s == "Sure, $250"
    ensures Quote(Success(JObj(map["text" := JStr(s)]))).Failure?
  {
    assert s == "Sure" + "," + " $250";
    StrayComma("Sure", " $250");
  }

  /** A reply without any digit or comma gives no price and no error. */
  lemma NoNumberNoPrice(s: string)
    requires forall k :: 0 <= k < |s| ==> !NumChar(s[k])
    ensures Quote(Success(JObj(map["text" := JStr(s)]))) == Success(None)
  {
  }

  // ---------------------------------------------------------------------
  // Properties of the price update

  /** The searched ticker equal to a given one, if any. */
  function TickerWithKey(ts: seq<Json>, key: Json): (r: Option<Json>)
    ensures r.Some? ==> r.value in ts && Key(r.value) == key
    ensures r.None? <==> key !in KeySet(ts)
    decreases |ts|
  {
    if ts == [] then None
    else if Key(ts[|ts| - 1]) == key then Some(ts[|ts| - 1])
    else TickerWithKey(ts[..|ts| - 1], key)
  }

  /** What the job leaves in one position: an active position whose ticker was
      searched and priced holds that price; every other position is unchanged. */
  function NewPrice(p: PositionRow, ts: seq<Json>, search: Search, repr: Json -> string): (r: PositionRow)
    ensures r.status == p.status && r.ticker == p.ticker
  {
    if p.status != "active" then p
    else match TickerWithKey(ts, Key(p.ticker))
      case None => p
      case Some(t) =>
        match PriceOf(t, search, repr)
        case None => p
        case Some(v) => p.(currentPrice := Some(v))
  }

  /** With distinct tickers the order of the searches does not matter: each
      position ends with the price of its own ticker. */
  lemma {:induction false} RepricedPointwise(ps: seq<PositionRow>, ts: seq<Json>, search: Search, repr: Json -> string)
    requires DistinctKeys(ts)
    ensures forall k :: 0 <= k < |ps| ==> Repriced(ps, ts, search, repr)[k] == NewPrice(ps[k], ts, search, repr)
    decreases |ts|
  {
    if ts != [] {
      var init := ts[..|ts| - 1];
      var last := ts[|ts| - 1];
      assert DistinctKeys(init);
      RepricedPointwise(ps, init, search, repr);
      assert forall k :: 0 <= k < |init| ==> init[k] == ts[k];
      FreshKey(init, last);
      forall k | 0 <= k < |ps|
        ensures Repriced(ps, ts, search, repr)[k] == NewPrice(ps[k], ts, search, repr)
      {
        RepricedAt(ps[k], init, last, Repriced(ps, init, search, repr)[k], search, repr);
      }
    }
  }

  lemma RepricedAt(p: PositionRow, init: seq<Json>, last: Json, before: PositionRow, search: Search, repr: Json -> string)
    requires Key(last) !in KeySet(init)
    requires before == NewPrice(p, init, search, repr)
    ensures (match PriceOf(last, search, repr)
             case None => before
             case Some(v) => if Matches(before, last) then before.(currentPrice := Some(v)) else before)
            == NewPrice(p, init + [last], search, repr)
  {
    var key := Key(p.ticker);
    TickerWithKeySnoc(init, last, key);
    if p.status == "active" && Key(last) == key {
      assert TickerWithKey(init, key).None?;
      assert before == p;
    }
  }

  lemma TickerWithKeySnoc(init: seq<Json>, last: Json, key: Json)
    ensures TickerWithKey(init + [last], key) == if Key(last) == key then Some(last) else TickerWithKey(init, key)
  {
    assert (init + [last])[..|init|] == init;
  }

  lemma {:induction false} ActiveTickerListed(ps: seq<PositionRow>, k: nat)
    requires k < |ps| && ps[k].status == "active"
    ensures Key(ps[k].ticker) in KeySet(ActiveTickers(ps))
    decreases |ps|
  {
    var init := ps[..|ps| - 1];
    KeySetConcat(ActiveTickers(init), if ps[|ps| - 1].status == "active" then [ps[|ps| - 1].ticker] else []);
    if k < |ps| - 1 {
      ActiveTickerListed(init, k);
    }
  }

  lemma {:induction false} KeySetConcat(a: seq<Json>, b: seq<Json>)
    ensures KeySet(a) <= KeySet(a + b)
    ensures forall k :: 0 <= k < |b| ==> Key(b[k]) in KeySet(a + b)
    decreases |b|
  {
    if b == [] {
      assert a + b == a;
    } else {
      var init := b[..|b| - 1];
      KeySetConcat(a, init);
      assert a + b == (a + init) + [b[|b| - 1]];
      KeySetSnoc(a + init, b[|b| - 1]);
    }
    assert forall k :: 0 <= k < |b| ==> (a + b)[|a| + k] == b[k];
  }

  /** A value whose class no element shares is not among the list's classes. */
  lemma {:induction false} FreshKey(xs: seq<Json>, x: Json)
    requires forall k :: 0 <= k < |xs| ==> Key(xs[k]) != Key(x)
    ensures Key(x) !in KeySet(xs)
    decreases |xs|
  {
    if xs != [] {
      FreshKey(xs[..|xs| - 1], x);
    }
  }

  /** The price job writes, to every active position, the price found for its
      ticker, and touches nothing else: every active ticker is searched once. */
  lemma PricesReachEveryActivePosition(ps: seq<PositionRow>, search: Search, repr: Json -> string)
    ensures var unique := Distinct(ActiveTickers(ps));
            forall k :: 0 <= k < |ps| ==> Repriced(ps, unique, search, repr)[k] == NewPrice(ps[k], unique, search, repr)
    ensures var unique := Distinct(ActiveTickers(ps));
            forall k :: 0 <= k < |ps| && ps[k].status == "active" ==> TickerWithKey(unique, Key(ps[k].ticker)).Some?
  {
    var unique := Distinct(ActiveTickers(ps));
    RepricedPointwise(ps, unique, search, repr);
    forall k | 0 <= k < |ps| && ps[k].status == "active"
      ensures TickerWithKey(unique, Key(ps[k].ticker)).Some?
    {
      ActiveTickerListed(ps, k);
    }
  }

  lemma {:induction false} DistinctKeysCount(xs: seq<Json>)
    requires DistinctKeys(xs)
    ensures |KeySet(xs)| == |xs|
    decreases |xs|
  {
    if xs != [] {
      var init := xs[..|xs| - 1];
      assert DistinctKeys(init);
      DistinctKeysCount(init);
      FreshKey(init, xs[|xs| - 1]);
    }
  }

  /** `updated` is at most the number of different active tickers. */
  lemma UpdatedAtMostUnique(ps: seq<PositionRow>, search: Search, repr: Json -> string)
    ensures UpdatedCount(Distinct(ActiveTickers(ps)), search, repr) <= |KeySet(ActiveTickers(ps))|
  {
    DistinctKeysCount(Distinct(ActiveTickers(ps)));
  }
}
