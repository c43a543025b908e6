/** The analysis endpoints (backend/api/routes/analyze.py): one stock analysed
    with its thesis optionally saved, and a batch of stocks analysed one after
    the other.  The research pipeline `analyze_stock` is the parameter
    `analyze`, called with the upper-cased ticker; the new thesis's id is an
    input. */
module AnalyzeRoutes {
  import opened Wrappers
  import opened JsonValues
  import opened Text
  import opened Store
  import ThesisModel

  /** `analyze_stock`: the pipeline's result, or the message of what it raised. */
  type Analyzer = string -> Result<Json, string>

  /** The body of `POST /analyze`. */
  datatype AnalyzeRequest = AnalyzeRequest(ticker: string, fundId: Option<string>, saveThesis: bool)

  /** What a successful analysis answers, and the thesis row it saved, if any. */
  datatype Analysed = Analysed(response: Obj, saved: Option<ThesisRow>)

  // ---------------------------------------------------------------------
  // analyze_ticker

  /** The bull or bear case in the response: its "summary" when the thesis holds
      a dict there, otherwise the value itself (`None` when absent). */
  function CaseField(t: Obj, key: string): (r: Json)
    ensures key !in t ==> r == JNull
    ensures key in t && t[key].JObj? ==> r == Lookup(t[key].fields, "summary", JNull)
    ensures key in t && !t[key].JObj? ==> r == t[key]
  {
    match Lookup(t, key, JNull)
    case JObj(c) => Lookup(c, "summary", JNull)
    case other => other
  }

  /** The response built from the thesis part of the analysis. */
  function Response(ticker: string, t: Obj): Obj {
    map["ticker" := JStr(Upper(ticker)),
        "recommendation" := Lookup(t, "recommendation", JNull),
        "conviction" := Lookup(t, "conviction", JNull),
        "target_weight" := Lookup(t, "target_weight", JNull),
        "thesis_summary" := Lookup(t, "thesis_summary", JNull),
        "bull_case" := CaseField(t, "bull_case"),
        "bear_case" := CaseField(t, "bear_case"),
        "key_risks" := Lookup(t, "key_risks", JNull),
        "scores" := Lookup(t, "score_breakdown", JNull),
        "thesis_id" := JNull]
  }

  /** `analyze_ticker`: anything raised on the way turns into a 500 carrying its
      message; the thesis is built and saved only when `save_thesis` is set. */
  function Analysis(req: AnalyzeRequest, analysis: Result<Json, string>, repr: Json -> string, newId: string)
    : (r: Result<Analysed, HttpError>)
    ensures r.Failure? ==> r.error.status == 500
    ensures analysis.Failure? ==> r == Failure(HttpError(500, analysis.error))
    ensures r.Success? ==> "ticker" in r.value.response && r.value.response["ticker"] == JStr(Upper(req.ticker))
  {
    match analysis
    case Failure(e) => Failure(HttpError(500, e))
    case Success(result) =>
      match Get(result, "thesis", EmptyObj)
      case Failure(e) => Failure(HttpError(500, e))
      case Success(thesisData) =>
        match Get(thesisData, "recommendation", JNull)
        case Failure(e) => Failure(HttpError(500, e))
        case Success(_) =>
          var response := Response(req.ticker, thesisData.fields);
          if !req.saveThesis then Success(Analysed(response, None))
          else match ThesisModel.FromAnalysis(Upper(req.ticker), result.fields, req.fundId, repr)
            case Failure(e) => Failure(HttpError(500, e))
            case Success(th) => Success(Analysed(response["thesis_id" := JStr(newId)], Some(ThesisRow(newId, th))))
  }

  /** `POST /analyze`: the response, and the thesis table grown by the saved row. */
  method AnalyzeTicker(db: Database, req: AnalyzeRequest, analyze: Analyzer, repr: Json -> string, newId: string)
    returns (r: Result<Obj, HttpError>)
    modifies db
    ensures var a := Analysis(req, analyze(Upper(req.ticker)), repr, newId);
            && r == (if a.Success? then Success(a.value.response) else Failure(a.error))
            && db.theses == old(db.theses) + (if a.Success? && a.value.saved.Some? then [a.value.saved.value] else [])
    ensures db.funds == old(db.funds) && db.positions == old(db.positions) && db.alerts == old(db.alerts)
    ensures db.riskReports == old(db.riskReports) && db.conversations == old(db.conversations)
  {
    var result := analyze(Upper(req.ticker));
    var a := Analysis(req, result, repr, newId);
    if a.Failure? {
      return Failure(a.error);
    }
    if a.value.saved.Some? {
      db.theses := db.theses + [a.value.saved.value];
    }
    r := Success(a.value.response);
  }

  // ---------------------------------------------------------------------
  // analyze_batch

  /** The entry of a ticker whose analysis raised. */
  function ErrorEntry(ticker: string, e: string): Obj {
    map["ticker" := JStr(Upper(ticker)), "status" := JStr("error"), "error" := JStr(e)]
  }

  /** One pass of the batch loop's `try`: a success entry with the thesis's
      recommendation, conviction and overall score, or an error entry. */
  function BatchEntry(ticker: string, analysis: Result<Json, string>): (r: Obj)
    ensures "ticker" in r && r["ticker"] == JStr(Upper(ticker))
    ensures "status" in r && (r["status"] == JStr("success") || r["status"] == JStr("error"))
    ensures analysis.Failure? ==> r == ErrorEntry(ticker, analysis.error)
  {
    match analysis
    case Failure(e) => ErrorEntry(ticker, e)
    case Success(result) =>
      match Get(result, "thesis", EmptyObj)
      case Failure(e) => ErrorEntry(ticker, e)
      case Success(thesisData) =>
        match Get(thesisData, "recommendation", JNull)
        case Failure(e) => ErrorEntry(ticker, e)
        case Success(recommendation) =>
          var t := thesisData.fields;
          match Get(Lookup(t, "score_breakdown", EmptyObj), "overall", JNull)
          case Failure(e) => ErrorEntry(ticker, e)
          case Success(score) =>
            map["ticker" := JStr(Upper(ticker)), "status" := JStr("success"),
                "recommendation" := recommendation,
                "conviction" := Lookup(t, "conviction", JNull),
                "score" := score]
  }

  /** The results the batch loop appends, one per ticker. */
  function Batch(tickers: seq<string>, analyze: Analyzer): seq<Obj>
    decreases |tickers|
  {
    if tickers == [] then []
    else
      var last := tickers[|tickers| - 1];
      Batch(tickers[..|tickers| - 1], analyze) + [BatchEntry(last, analyze(Upper(last)))]
  }

  /** `len([r for r in results if r["status"] == status])`. */
  function Count(results: seq<Obj>, status: string): (r: nat)
    ensures r <= |results|
  {
    if results == [] then 0
    else (if Lookup(results[0], "status", JNull) == JStr(status) then 1 else 0) + Count(results[1..], status)
  }

  /** The batch response: the two counts and the entries. */
  function BatchResponse(results: seq<Obj>): Obj {
    map["analyzed" := JNum(Count(results, "success") as real),
        "failed" := JNum(Count(results, "error") as real),
        "results" := JArr(seq(|results|, k requires 0 <= k < |results| => JObj(results[k])))]
  }

  /** `POST /analyze/batch`: the tickers one after the other. */
  method AnalyzeBatch(tickers: seq<string>, analyze: Analyzer) returns (r: Obj)
    ensures r == BatchResponse(Batch(tickers, analyze))
  {
    var results: seq<Obj> := [];
    var i := 0;
    while i < |tickers|
      invariant 0 <= i <= |tickers|
      invariant results == Batch(tickers[..i], analyze)
    {
      assert tickers[..i + 1][..i] == tickers[..i];
      var result := analyze(Upper(tickers[i]));
      results := results + [BatchEntry(tickers[i], result)];
      i := i + 1;
    }
    assert tickers[..i] == tickers;
    r := BatchResponse(results);
  }

  // ---------------------------------------------------------------------
  // Properties

  /** The batch has one entry per ticker, in input order, and each entry depends
      on its own ticker's analysis alone: an error on one ticker neither stops
      nor changes the others. */
  lemma {:induction false} BatchEntries(tickers: seq<string>, analyze: Analyzer)
    ensures |Batch(tickers, analyze)| == |tickers|
    ensures forall k :: 0 <= k < |tickers| ==>
              Batch(tickers, analyze)[k] == BatchEntry(tickers[k], analyze(Upper(tickers[k])))
    decreases |tickers|
  {
    if tickers != [] {
      var init := tickers[..|tickers| - 1];
      BatchEntries(init, analyze);
      assert forall k :: 0 <= k < |init| ==> init[k] == tickers[k];
    }
  }

  /** Analysing two lists of tickers in turn gives the two batches one after the other. */
  lemma {:induction false} BatchConcat(a: seq<string>, b: seq<string>, analyze: Analyzer)
    ensures Batch(a + b, analyze) == Batch(a, analyze) + Batch(b, analyze)
    decreases |b|
  {
    if b == [] {
      assert a + b == a;
      assert Batch(a, analyze) + [] == Batch(a, analyze);
    } else {
      var init := b[..|b| - 1];
      assert (a + b)[..|a + b| - 1] == a + init;
      assert (a + b)[|a + b| - 1] == b[|b| - 1];
      BatchConcat(a, init, analyze);
    }
  }

  lemma {:induction false} CountConcat(a: seq<Obj>, b: seq<Obj>, status: string)
    ensures Count(a + b, status) == Count(a, status) + Count(b, status)
  {
    if a == [] {
      assert a + b == b;
    } else {
      assert (a + b)[1..] == a[1..] + b;
      CountConcat(a[1..], b, status);
    }
  }

  /** When every entry is a success or an error, the two counts cover them all. */
  lemma {:induction false} CountsCover(results: seq<Obj>)
    requires forall k :: 0 <= k < |results| ==>
               Lookup(results[k], "status", JNull) == JStr("success") || Lookup(results[k], "status", JNull) == JStr("error")
    ensures Count(results, "success") + Count(results, "error") == |results|
  {
    if results != [] {
      assert JStr("success") != JStr("error");
      CountsCover(results[1..]);
    }
  }

  /** `analyzed` + `failed` is the number of tickers, and there are that many results. */
  lemma BatchCounts(tickers: seq<string>, analyze: Analyzer)
    ensures var resp := BatchResponse(Batch(tickers, analyze));
            && resp["analyzed"].n + resp["failed"].n == |tickers| as real
            && |resp["results"].items| == |tickers|
  {
    var results := Batch(tickers, analyze);
    BatchEntries(tickers, analyze);
    CountsCover(results);
  }

  /** An entry is a success exactly when the analysis returned a dict whose
      thesis and score breakdown (when present) are dicts; a success entry's
      score is the breakdown's "overall". */
  lemma SuccessEntry(ticker: string, analysis: Result<Json, string>)
    ensures BatchEntry(ticker, analysis)["status"] == JStr("success") <==>
              && analysis.Success? && analysis.value.JObj?
              && Lookup(analysis.value.fields, "thesis", EmptyObj).JObj?
              && Lookup(Lookup(analysis.value.fields, "thesis", EmptyObj).fields, "score_breakdown", EmptyObj).JObj?
    ensures BatchEntry(ticker, analysis)["status"] == JStr("success") ==>
              var t := Lookup(analysis.value.fields, "thesis", EmptyObj).fields;
              && BatchEntry(ticker, analysis)["score"] == Lookup(Lookup(t, "score_breakdown", EmptyObj).fields, "overall", JNull)
              && BatchEntry(ticker, analysis)["recommendation"] == Lookup(t, "recommendation", JNull)
              && BatchEntry(ticker, analysis)["conviction"] == Lookup(t, "conviction", JNull)
  {
    assert JStr("error") != JStr("success");
  }

  /** A ticker whose analysis raised is recorded with status "error" and the message. */
  lemma FailedEntry(ticker: string, e: string)
    ensures BatchEntry(ticker, Failure(e))["status"] == JStr("error")
    ensures BatchEntry(ticker, Failure(e))["error"] == JStr(e)
  {
  }

  /** A thesis is saved exactly when it was asked for; the saved row is the
      thesis built from the whole analysis under the new id, which the
      response then reports. */
  lemma SavedOnlyWhenRequested(req: AnalyzeRequest, analysis: Result<Json, string>, repr: Json -> string, newId: string)
    requires Analysis(req, analysis, repr, newId).Success?
    ensures var a := Analysis(req, analysis, repr, newId).value;
            && (a.saved.Some? <==> req.saveThesis)
            && (req.saveThesis ==>
                  && a.saved.value
                     == ThesisRow(newId, ThesisModel.FromAnalysis(Upper(req.ticker), analysis.value.fields, req.fundId, repr).value)
                  && a.response["thesis_id"] == JStr(newId))
            && (!req.saveThesis ==> a.response["thesis_id"] == JNull)
  {
  }

  /** Without `save_thesis` the thesis table is left alone. */
  lemma NoSaveKeepsTheses(req: AnalyzeRequest, analysis: Result<Json, string>, repr: Json -> string, newId: string)
    requires !req.saveThesis
    ensures var a := Analysis(req, analysis, repr, newId);
            a.Success? ==> a.value.saved.None?
  {
  }

  /** The response's bull or bear case agrees with what the saved thesis stores
      (`ThesisModel.CaseText`) when the value is absent, a dict or a string; only
      another kind of value (`None`, a number, a list) is reported raw but stored
      as its `str()`. */
  lemma ResponseCaseMatchesThesis(t: Obj, key: string, repr: Json -> string)
    ensures (key !in t || t[key].JObj? || t[key].JStr?) ==>
              CaseField(t, key) == ThesisModel.CaseText(Lookup(t, key, EmptyObj), repr)
    ensures key in t && t[key] == JNull ==>
              CaseField(t, key) == JNull && ThesisModel.CaseText(Lookup(t, key, EmptyObj), repr) == JStr("None")
  {
  }
}
