/** The stored investment thesis (backend/models/thesis.py): how an analysis
    result becomes a thesis row, how a price target is parsed, and which
    numbers `to_dict` reports.  Python's `str()` of non-string values is the
    parameter `repr`; identifiers and timestamps are inputs. */
module ThesisModel {
  import opened Wrappers
  import opened Text
  import opened JsonValues

  /** A thesis row.  JSON-typed columns hold the values as the writer produced them. */
  datatype Thesis = Thesis(
    fundId: Option<string>, ticker: string,
    recommendation: Json, conviction: Json, targetPrice: Option<real>, targetWeight: Json,
    fundamentals: Json, moatAnalysis: Json, sentiment: Json, valuation: Json,
    bullCase: Json, bearCase: Json, keyRisks: Json, catalysts: Json,
    fullThesis: Json, thesisSummary: Json,
    scoreFundamentals: Json, scoreMoat: Json, scoreSentiment: Json, scoreValuation: Json,
    scoreOverall: Json,
    sources: Json)

  /** `str(price).replace("$", "").replace(",", "").strip()`. */
  function CleanPrice(price: Json, repr: Json -> string): string {
    Strip(RemoveChar(RemoveChar(PyStr(price, repr), '$'), ','))
  }

  /** The cleaned text holds no "$" and no "," and has no surrounding whitespace. */
  lemma CleanPriceShape(price: Json, repr: Json -> string)
    ensures forall k :: 0 <= k < |CleanPrice(price, repr)| ==>
              CleanPrice(price, repr)[k] != '$' && CleanPrice(price, repr)[k] != ','
    ensures NoEdgeSpace(CleanPrice(price, repr))
  {
    var s := RemoveChar(RemoveChar(PyStr(price, repr), '$'), ',');
    NoDollarAfterComma(PyStr(price, repr));
    StripIsTrimmedSlice(s);
  }

  lemma NoDollarAfterComma(s: string)
    ensures forall k :: 0 <= k < |RemoveChar(RemoveChar(s, '$'), ',')| ==>
              RemoveChar(RemoveChar(s, '$'), ',')[k] != '$'
  {
    RemoveCharKeepsAbsent(RemoveChar(s, '$'), ',', '$');
  }

  /** `_parse_price`: `None` for a falsy value, otherwise the cleaned text as a
      decimal, `None` when it does not parse. */
  function ParsePrice(price: Json, repr: Json -> string): (r: Option<real>)
    ensures !Truthy(price) ==> r.None?
  {
    if !Truthy(price) then None
    else ParseDecimal(CleanPrice(price, repr))
  }

  /** `bull.get("summary") if isinstance(bull, dict) else str(bull)`. */
  function CaseText(c: Json, repr: Json -> string): (r: Json)
    ensures c.JObj? ==> r == Lookup(c.fields, "summary", JNull)
    ensures !c.JObj? ==> r == JStr(PyStr(c, repr))
  {
    match c
    case JObj(m) => Lookup(m, "summary", JNull)
    case _ => JStr(PyStr(c, repr))
  }

  /** `Thesis.from_analysis`: each `.get` needs a dict, so a thesis, research or
      score breakdown that is not one raises `AttributeError`. */
  function FromAnalysis(ticker: string, analysis: Obj, fundId: Option<string>, repr: Json -> string)
    : (r: Result<Thesis, string>)
    ensures r.Success? <==>
              && Lookup(analysis, "thesis", EmptyObj).JObj? && Lookup(analysis, "research", EmptyObj).JObj?
              && Lookup(Lookup(analysis, "thesis", EmptyObj).fields, "score_breakdown", EmptyObj).JObj?
    ensures r.Success? ==> r.value.ticker == ticker && r.value.fundId == fundId
  {
    var thesisData := Lookup(analysis, "thesis", EmptyObj);
    var research := Lookup(analysis, "research", EmptyObj);
    if !thesisData.JObj? || !research.JObj? then Failure("AttributeError: object has no attribute 'get'")
    else
      var t := thesisData.fields;
      var scores := Lookup(t, "score_breakdown", EmptyObj);
      if !scores.JObj? then Failure("AttributeError: object has no attribute 'get'")
      else
        var sc := scores.fields;
        var rs := research.fields;
        Success(Thesis(
          fundId, ticker,
          Lookup(t, "recommendation", JNull), Lookup(t, "conviction", JNull),
          ParsePrice(Lookup(t, "price_target", JNull), repr), Lookup(t, "target_weight", JNull),
          Lookup(rs, "fundamentals", JNull), Lookup(rs, "moat", JNull),
          Lookup(rs, "sentiment", JNull), Lookup(rs, "valuation", JNull),
          CaseText(Lookup(t, "bull_case", EmptyObj), repr), CaseText(Lookup(t, "bear_case", EmptyObj), repr),
          Lookup(t, "key_risks", JNull), Lookup(t, "catalysts", JNull),
          Lookup(t, "full_thesis", JNull), Lookup(t, "thesis_summary", JNull),
          Lookup(sc, "fundamentals", JNull), Lookup(sc, "moat", JNull), Lookup(sc, "sentiment", JNull),
          Lookup(sc, "valuation", JNull), Lookup(sc, "overall", JNull),
          Lookup(analysis, "sources", JNull)))
  }

  /** `float(x) if x else None` for a numeric column. */
  function NumberOrNone(x: Json): Json {
    if Truthy(x) then x else JNull
  }

  /** The stored target price as JSON: `None` when absent or zero. */
  function PriceOrNone(p: Option<real>): Json {
    if p.Some? && p.value != 0.0 then JNum(p.value) else JNull
  }

  /** `Thesis.to_dict` (without the creation timestamp, an input of the store). */
  function ToDict(t: Thesis, id: string): (r: Obj)
    ensures "id" in r && r["id"] == JStr(id)
    ensures "ticker" in r && r["ticker"] == JStr(t.ticker)
    ensures "fund_id" in r && r["fund_id"] == (if t.fundId.Some? then JStr(t.fundId.value) else JNull)
  {
    map["id" := JStr(id),
        "fund_id" := (if t.fundId.Some? then JStr(t.fundId.value) else JNull),
        "ticker" := JStr(t.ticker),
        "recommendation" := t.recommendation,
        "conviction" := NumberOrNone(t.conviction),
        "target_price" := PriceOrNone(t.targetPrice),
        "target_weight" := NumberOrNone(t.targetWeight),
        "bull_case" := t.bullCase, "bear_case" := t.bearCase,
        "key_risks" := t.keyRisks, "catalysts" := t.catalysts,
        "thesis_summary" := t.thesisSummary,
        "scores" := JObj(map["fundamentals" := t.scoreFundamentals, "moat" := t.scoreMoat,
                             "sentiment" := t.scoreSentiment, "valuation" := t.scoreValuation,
                             "overall" := t.scoreOverall])]
  }

  // ---------------------------------------------------------------------
  // Properties

  lemma CleanPriceOf(x: string, repr: Json -> string)
    ensures CleanPrice(JStr(x), repr) == Strip(RemoveChar(RemoveChar(x, '$'), ','))
  {
  }

  /** A dollar sign and a thousands separator are ignored: "$a,b.c" parses
      as the literal "ab.c". */
  lemma ThousandsPrice(a: string, b: string, c: string, repr: Json -> string)
    requires a != [] && AllDigits(a) && AllDigits(b) && AllDigits(c)
    ensures ParsePrice(JStr("$" + a + "," + b + "." + c), repr) == ParseDecimal(a + b + "." + c)
    ensures ParsePrice(JStr("$" + a + "," + b + "." + c), repr) == Some(LiteralValue(a + b, c))
  {
    ThousandsClean(a, b, c, repr);
    PriceFromClean("$" + a + "," + b + "." + c, a + b + "." + c, repr);
    assert AllDigits(a + b);
    DecimalLiteral(a + b, c);
  }

  /** A present price parses as its cleaned text. */
  lemma PriceFromClean(x: string, t: string, repr: Json -> string)
    requires x != [] && CleanPrice(JStr(x), repr) == t
    ensures ParsePrice(JStr(x), repr) == ParseDecimal(t)
  {
  }

  /** Cleaning "$a,b.c" leaves "ab.c". */
  lemma ThousandsClean(a: string, b: string, c: string, repr: Json -> string)
    requires a != [] && AllDigits(a) && AllDigits(b) && AllDigits(c)
    ensures CleanPrice(JStr("$" + a + "," + b + "." + c), repr) == a + b + "." + c
  {
    ThousandsCleaned(a, b, c);
    assert AllDigits(a + b);
    LiteralNoEdge(a + b, c);
    CleanFrom("$" + a + "," + b + "." + c, a + b + "." + c, repr);
  }

  /** Text whose separators are removed and whose ends are not blank is its own cleaning. */
  lemma CleanFrom(x: string, u: string, repr: Json -> string)
    requires RemoveChar(RemoveChar(x, '$'), ',') == u && NoEdgeSpace(u)
    ensures CleanPrice(JStr(x), repr) == u
  {
    CleanPriceOf(x, repr);
    StripNoEdge(u);
  }

  lemma LiteralNoEdge(ip: string, fp: string)
    requires ip != [] && AllDigits(ip) && AllDigits(fp)
    ensures NoEdgeSpace(ip + "." + fp)
  {
    LiteralShape(ip, fp, ip + "." + fp);
  }

  lemma ThousandsCleaned(a: string, b: string, c: string)
    requires AllDigits(a) && AllDigits(b) && AllDigits(c)
    ensures RemoveChar(RemoveChar("$" + a + "," + b + "." + c, '$'), ',') == a + b + "." + c
  {
    var tail := b + "." + c;
    FractionAvoids(b, c, '$');
    FractionAvoids(b, c, ',');
    AfterDollar(a, tail);
    var y := a + "," + tail;
    assert "$" + a + "," + b + "." + c == ['$'] + y;
    RemoveCharFirst('$', y);
    assert y == a + [','] + tail;
    DigitsAvoid(a, ',');
    RemoveCharSkip(a, ',', tail);
    assert a + tail == a + b + "." + c;
  }

  lemma AfterDollar(a: string, tail: string)
    requires AllDigits(a)
    requires forall k :: 0 <= k < |tail| ==> tail[k] != '$'
    ensures forall k :: 0 <= k < |a + "," + tail| ==> (a + "," + tail)[k] != '$'
  {
    var y := a + "," + tail;
    forall k | 0 <= k < |y| ensures y[k] != '$' {
      if k < |a| { assert y[k] == a[k]; }
      else if k > |a| { assert y[k] == tail[k - |a| - 1]; }
    }
  }

  /** A whole-number price, with or without a leading "$", parses to its value. */
  lemma ParsePriceDigits(digits: string, repr: Json -> string)
    requires digits != [] && AllDigits(digits)
    ensures ParsePrice(JStr(digits), repr) == Some(DigitsValue(digits) as real)
    ensures ParsePrice(JStr("$" + digits), repr) == Some(DigitsValue(digits) as real)
  {
    CleanDigits(digits, repr);
    PriceFromClean(digits, digits, repr);
    PriceFromClean("$" + digits, digits, repr);
    ParseDigits(digits);
  }

  lemma CleanDigits(digits: string, repr: Json -> string)
    requires AllDigits(digits)
    ensures CleanPrice(JStr(digits), repr) == digits
    ensures CleanPrice(JStr("$" + digits), repr) == digits
  {
    assert RemoveChar(RemoveChar(digits, '$'), ',') == digits by {
      RemoveCharAbsent(digits, '$');
      RemoveCharAbsent(digits, ',');
    }
    assert RemoveChar(RemoveChar("$" + digits, '$'), ',') == digits by {
      DropDollar(digits);
      RemoveCharAbsent(digits, ',');
    }
    assert Strip(digits) == digits by {
      assert NoEdgeSpace(digits);
      StripNoEdge(digits);
    }
    CleanPriceOf(digits, repr);
    CleanPriceOf("$" + digits, repr);
  }

  lemma DropDollar(digits: string)
    requires AllDigits(digits)
    ensures RemoveChar("$" + digits, '$') == digits
  {
    RemoveCharAbsent(digits, '$');
    RemoveCharConcat("$", digits, '$');
    assert RemoveChar("$", '$') == "" by { assert "$"[1..] == ""; }
    assert "" + digits == digits;
  }

  /** Bull and bear cases: a dict gives its summary (possibly `None`), a missing
      case gives `None`, anything else its `str()`. */
  lemma CaseTextRules(t: Obj, repr: Json -> string)
    ensures "bull_case" !in t ==> CaseText(Lookup(t, "bull_case", EmptyObj), repr) == JNull
    ensures "bull_case" in t && t["bull_case"].JStr? ==>
              CaseText(Lookup(t, "bull_case", EmptyObj), repr) == t["bull_case"]
    ensures "bull_case" in t && t["bull_case"] == JNull ==>
              CaseText(Lookup(t, "bull_case", EmptyObj), repr) == JStr("None")
  {
  }

  /** The row maps the writer's fields one to one: the score breakdown to the
      score columns, moat to `moat_analysis`, and the sources from the top level
      of the analysis result. */
  lemma FromAnalysisMapping(ticker: string, analysis: Obj, fundId: Option<string>, repr: Json -> string)
    requires "thesis" in analysis && analysis["thesis"].JObj?
    requires "research" in analysis && analysis["research"].JObj?
    requires "score_breakdown" in analysis["thesis"].fields && analysis["thesis"].fields["score_breakdown"].JObj?
    ensures var r := FromAnalysis(ticker, analysis, fundId, repr);
      var t := analysis["thesis"].fields;
      var sc := t["score_breakdown"].fields;
      var rs := analysis["research"].fields;
      && r.Success?
      && r.value.ticker == ticker && r.value.fundId == fundId
      && r.value.scoreOverall == Lookup(sc, "overall", JNull)
      && r.value.scoreMoat == Lookup(sc, "moat", JNull)
      && r.value.moatAnalysis == Lookup(rs, "moat", JNull)
      && r.value.fundamentals == Lookup(rs, "fundamentals", JNull)
      && r.value.sources == Lookup(analysis, "sources", JNull)
      && r.value.targetPrice == ParsePrice(Lookup(t, "price_target", JNull), repr)
  {
  }

  /** An absent thesis or research part counts as `{}`: every column is `None`
      and both cases are `None`. */
  lemma FromEmptyAnalysis(ticker: string, fundId: Option<string>, repr: Json -> string)
    ensures var r := FromAnalysis(ticker, map[], fundId, repr);
      && r.Success?
      && r.value.recommendation == JNull && r.value.targetPrice.None?
      && r.value.bullCase == JNull && r.value.bearCase == JNull
      && r.value.scoreOverall == JNull && r.value.sources == JNull
  {
  }

  /** A thesis whose parts are not dicts cannot be mapped. */
  lemma FromAnalysisNeedsDicts(ticker: string, analysis: Obj, fundId: Option<string>, repr: Json -> string)
    ensures "thesis" in analysis && !analysis["thesis"].JObj? ==> FromAnalysis(ticker, analysis, fundId, repr).Failure?
    ensures "research" in analysis && !analysis["research"].JObj? ==> FromAnalysis(ticker, analysis, fundId, repr).Failure?
  {
  }

  /** `to_dict` reports conviction, target price and target weight as `None`
      when they are zero or absent, and as stored otherwise. */
  lemma ToDictNumbers(t: Thesis, id: string)
    ensures var d := ToDict(t, id);
      && (t.conviction == JNull || t.conviction == JNum(0.0) ==> d["conviction"] == JNull)
      && (Truthy(t.conviction) ==> d["conviction"] == t.conviction)
      && (t.targetPrice.None? || t.targetPrice == Some(0.0) ==> d["target_price"] == JNull)
      && (t.targetPrice.Some? && t.targetPrice.value != 0.0 ==> d["target_price"] == JNum(t.targetPrice.value))
      && (t.targetWeight == JNull || t.targetWeight == JNum(0.0) ==> d["target_weight"] == JNull)
      && (Truthy(t.targetWeight) ==> d["target_weight"] == t.targetWeight)
  {
  }

  /** `to_dict` exposes the scores under `scores`, one key per column. */
  lemma ToDictScores(t: Thesis, id: string)
    ensures ToDict(t, id)["scores"].JObj?
    ensures ToDict(t, id)["scores"].fields["overall"] == t.scoreOverall
    ensures ToDict(t, id)["scores"].fields["moat"] == t.scoreMoat
  {
  }
}
