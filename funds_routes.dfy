/** The fund endpoints (backend/api/routes/funds.py): create a draft fund,
    add or update a position keyed by fund and upper-cased ticker, remove a
    position, activate a fund.  Generated ids and today's date are parameters. */
module FundsRoutes {
  import opened Wrappers
  import opened JsonValues
  import opened Text
  import opened Store

  datatype CreateFundRequest = CreateFundRequest(
    name: string, mandate: Option<string>, category: Option<string>,
    benchmarkPrimary: Option<string>, benchmarkSecondary: Option<string>,
    peerFunds: Option<seq<string>>, config: Option<Obj>)

  datatype FundResponse = FundResponse(
    id: string, name: string, mandate: Option<string>, category: Option<string>,
    status: string, benchmarkPrimary: Option<string>, positionsCount: nat)

  function OptStr(x: Option<string>): Json {
    if x.Some? then JStr(x.value) else JNull
  }

  function OptStrs(x: Option<seq<string>>): Json {
    if x.Some? then JArr(seq(|x.value|, k requires 0 <= k < |x.value| => JStr(x.value[k]))) else JNull
  }

  /** `name.lower().replace(" ", "-")`. */
  function SimpleSlug(name: string): (r: string)
    ensures |r| == |name|
    ensures forall k :: 0 <= k < |r| ==> r[k] != ' '
  {
    ReplaceChar(Lower(name), ' ', '-')
  }

  /** The row `create_fund` adds. */
  function NewFund(req: CreateFundRequest, id: string): FundRow {
    FundRow(id, req.name, Some(SimpleSlug(req.name)), OptStr(req.mandate), OptStr(req.category),
            OptStr(req.benchmarkPrimary), OptStr(req.benchmarkSecondary), OptStrs(req.peerFunds),
            if req.config.Some? then JObj(req.config.value) else JNull,
            "draft", None)
  }

  const DuplicateSlug := HttpError(500, "IntegrityError: UNIQUE constraint failed: funds.slug")
  const FundNotFound := HttpError(404, "Fund not found")
  const PositionNotFound := HttpError(404, "Position not found")

  /** `create_fund`: a draft fund with the simple slug; the commit fails when
      the slug is already taken. */
  method CreateFund(db: Database, req: CreateFundRequest, newId: string) returns (r: Result<FundResponse, HttpError>)
    requires forall f :: f in db.funds ==> f.id != newId
    modifies db
    ensures UniqueIds(old(db.funds)) ==> UniqueIds(db.funds)
    ensures SlugTaken(old(db.funds), SimpleSlug(req.name)) ==> r == Failure(DuplicateSlug) && db.funds == old(db.funds)
    ensures !SlugTaken(old(db.funds), SimpleSlug(req.name)) ==>
              && r == Success(FundResponse(newId, req.name, req.mandate, req.category, "draft", req.benchmarkPrimary, 0))
              && db.funds == old(db.funds) + [NewFund(req, newId)]
    ensures db.positions == old(db.positions) && db.theses == old(db.theses) && db.alerts == old(db.alerts)
    ensures db.riskReports == old(db.riskReports) && db.conversations == old(db.conversations)
  {
    var slug := SimpleSlug(req.name);
    if SlugTaken(db.funds, slug) {
      return Failure(DuplicateSlug);
    }
    db.funds := db.funds + [NewFund(req, newId)];
    r := Success(FundResponse(newId, req.name, req.mandate, req.category, "draft", req.benchmarkPrimary, 0));
  }

  /** A position row as `add_position` creates it. */
  function NewPosition(fundId: string, ticker: string, weight: real, thesisId: Option<string>): PositionRow {
    PositionRow(JStr(fundId), JStr(Upper(ticker)), JNull, JNum(weight), JNull, thesisId, "active", None)
  }

  /** The update of an existing row: only the target weight, and the thesis
      id when one is given. */
  function Updated(p: PositionRow, weight: real, thesisId: Option<string>): PositionRow {
    p.(targetWeight := JNum(weight),
       thesisId := if thesisId.Some? && thesisId.value != "" then thesisId else p.thesisId)
  }

  /** The positions table after `add_position` on an existing fund. */
  function Upsert(positions: seq<PositionRow>, fundId: string, ticker: string, weight: real,
                  thesisId: Option<string>): (r: Result<seq<PositionRow>, HttpError>)
    ensures r.Success? <==> |Matching(positions, JStr(fundId), JStr(Upper(ticker)))| <= 1
    ensures r.Success? ==>
              |r.value| == |positions| + (if Matching(positions, JStr(fundId), JStr(Upper(ticker))) == [] then 1 else 0)
  {
    match OneOrNone(Matching(positions, JStr(fundId), JStr(Upper(ticker))))
    case Failure(e) => Failure(e)
    case Success(None) => Success(positions + [NewPosition(fundId, ticker, weight, thesisId)])
    case Success(Some(k)) => Success(positions[k := Updated(positions[k], weight, thesisId)])
  }

  /** `add_position`: 404 for an unknown fund; otherwise the upsert, returning
      the row written. */
  method AddPosition(db: Database, fundId: string, ticker: string, weight: real, thesisId: Option<string>)
    returns (r: Result<PositionRow, HttpError>)
    modifies db
    ensures FundIndex(old(db.funds), fundId).None? ==> r == Failure(FundNotFound) && db.positions == old(db.positions)
    ensures FundIndex(old(db.funds), fundId).Some? ==>
              match Upsert(old(db.positions), fundId, ticker, weight, thesisId)
              case Failure(e) => r == Failure(e) && db.positions == old(db.positions)
              case Success(ps) => r.Success? && db.positions == ps
    ensures FundIndex(old(db.funds), fundId).Some? && Upsert(old(db.positions), fundId, ticker, weight, thesisId).Success? ==>
              match OneOrNone(Matching(old(db.positions), JStr(fundId), JStr(Upper(ticker)))).value
              case None => r.value == NewPosition(fundId, ticker, weight, thesisId) && r.value == db.positions[|db.positions| - 1]
              case Some(k) => k < |db.positions| && r.value == db.positions[k] && r.value == Updated(old(db.positions)[k], weight, thesisId)
    ensures db.funds == old(db.funds) && db.theses == old(db.theses) && db.alerts == old(db.alerts)
    ensures db.riskReports == old(db.riskReports) && db.conversations == old(db.conversations)
  {
    if FundIndex(db.funds, fundId).None? {
      return Failure(FundNotFound);
    }
    var existing := OneOrNone(Matching(db.positions, JStr(fundId), JStr(Upper(ticker))));
    if existing.Failure? {
      return Failure(existing.error);
    }
    if existing.value.Some? {
      var k := existing.value.value;
      var row := db.positions[k];
      row := row.(targetWeight := JNum(weight));
      if thesisId.Some? && thesisId.value != "" {
        row := row.(thesisId := thesisId);
      }
      db.positions := db.positions[k := row];
      assert db.positions[k] == row;
      return Success(row);
    }
    var position := NewPosition(fundId, ticker, weight, thesisId);
    db.positions := db.positions + [position];
    return Success(position);
  }

  /** The positions table after `remove_position`. */
  function Remove(positions: seq<PositionRow>, fundId: string, ticker: string): (r: Result<seq<PositionRow>, HttpError>)
    ensures r.Success? <==> |Matching(positions, JStr(fundId), JStr(Upper(ticker)))| == 1
    ensures r.Success? ==> |r.value| == |positions| - 1
  {
    match OneOrNone(Matching(positions, JStr(fundId), JStr(Upper(ticker))))
    case Failure(e) => Failure(e)
    case Success(None) => Failure(PositionNotFound)
    case Success(Some(k)) => Success(positions[..k] + positions[k + 1..])
  }

  /** `remove_position`: deletes the matching row and reports the upper-cased ticker. */
  method RemovePosition(db: Database, fundId: string, ticker: string) returns (r: Result<Obj, HttpError>)
    modifies db
    ensures match Remove(old(db.positions), fundId, ticker)
            case Failure(e) => r == Failure(e) && db.positions == old(db.positions)
            case Success(ps) =>
              && r == Success(map["status" := JStr("deleted"), "ticker" := JStr(Upper(ticker))])
              && db.positions == ps
    ensures db.funds == old(db.funds) && db.theses == old(db.theses) && db.alerts == old(db.alerts)
    ensures db.riskReports == old(db.riskReports) && db.conversations == old(db.conversations)
  {
    var found := OneOrNone(Matching(db.positions, JStr(fundId), JStr(Upper(ticker))));
    if found.Failure? {
      return Failure(found.error);
    }
    if found.value.None? {
      return Failure(PositionNotFound);
    }
    var k := found.value.value;
    db.positions := db.positions[..k] + db.positions[k + 1..];
    return Success(map["status" := JStr("deleted"), "ticker" := JStr(Upper(ticker))]);
  }

  /** `activate_fund`: status "active" and an inception date, or 404. */
  method ActivateFund(db: Database, fundId: string, today: string) returns (r: Result<Obj, HttpError>)
    modifies db
    ensures match FundIndex(old(db.funds), fundId)
            case None => r == Failure(FundNotFound) && db.funds == old(db.funds)
            case Some(k) =>
              && r == Success(map["status" := JStr("activated"), "fund_id" := JStr(fundId)])
              && db.funds == old(db.funds)[k := old(db.funds)[k].(status := "active", inceptionDate := Some(today))]
    ensures db.positions == old(db.positions) && db.theses == old(db.theses) && db.alerts == old(db.alerts)
    ensures db.riskReports == old(db.riskReports) && db.conversations == old(db.conversations)
    ensures UniqueIds(old(db.funds)) ==> UniqueIds(db.funds)
  {
    var found := FundIndex(db.funds, fundId);
    if found.None? {
      return Failure(FundNotFound);
    }
    var k := found.value;
    db.funds := db.funds[k := db.funds[k].(status := "active", inceptionDate := Some(today))];
    return Success(map["status" := JStr("activated"), "fund_id" := JStr(fundId)]);
  }

  // ---------------------------------------------------------------------
  // Properties

  /** The simple slug lower-cases letters and turns spaces into hyphens, and
      keeps every other character where it was. */
  lemma SimpleSlugChars(name: string)
    ensures |SimpleSlug(name)| == |name|
    ensures forall k :: 0 <= k < |name| ==>
              SimpleSlug(name)[k] == (if name[k] == ' ' then '-' else LowerChar(name[k]))
    ensures forall k :: 0 <= k < |name| ==> SimpleSlug(name)[k] != ' '
  {
  }

  /** Slugging a slug changes nothing. */
  lemma SimpleSlugIdempotent(name: string)
    ensures SimpleSlug(SimpleSlug(name)) == SimpleSlug(name)
  {
    var s := SimpleSlug(name);
    assert forall k :: 0 <= k < |s| ==> LowerChar(s[k]) == s[k];
  }

  /** "Tech & AI Leaders" becomes "tech-&-ai-leaders": only spaces are replaced. */
  lemma SimpleSlugExample()
    ensures SimpleSlug("Tech & AI") == "tech-&-ai"
  {
    var s := SimpleSlug("Tech & AI");
    assert |s| == 9;
    assert s[0] == 't' && s[1] == 'e' && s[2] == 'c' && s[3] == 'h' && s[4] == '-';
    assert s[5] == '&' && s[6] == '-' && s[7] == 'a' && s[8] == 'i';
  }

  /** A fund without that position gains exactly one new active row at the end. */
  lemma UpsertNew(positions: seq<PositionRow>, fundId: string, ticker: string, weight: real, thesisId: Option<string>)
    requires Matching(positions, JStr(fundId), JStr(Upper(ticker))) == []
    ensures Upsert(positions, fundId, ticker, weight, thesisId)
            == Success(positions + [NewPosition(fundId, ticker, weight, thesisId)])
    ensures NewPosition(fundId, ticker, weight, thesisId).status == "active"
    ensures NewPosition(fundId, ticker, weight, thesisId).ticker == JStr(Upper(ticker))
  {
  }

  /** An existing position changes in place: same number of rows, every other
      row as it was, and in that row only the weight and (when given) the thesis. */
  lemma UpsertExisting(positions: seq<PositionRow>, fundId: string, ticker: string, weight: real,
                       thesisId: Option<string>, k: nat)
    requires Matching(positions, JStr(fundId), JStr(Upper(ticker))) == [k]
    ensures Upsert(positions, fundId, ticker, weight, thesisId).Success?
    ensures var ps := Upsert(positions, fundId, ticker, weight, thesisId).value;
            && |ps| == |positions|
            && (forall j :: 0 <= j < |ps| && j != k ==> ps[j] == positions[j])
            && ps[k].targetWeight == JNum(weight)
            && ps[k].ticker == positions[k].ticker && ps[k].fundId == positions[k].fundId
            && ps[k].status == positions[k].status && ps[k].currentWeight == positions[k].currentWeight
            && ps[k].thesisId == (if thesisId.Some? && thesisId.value != "" then thesisId else positions[k].thesisId)
  {
  }

  /** The ticker's case in the request does not matter. */
  lemma UpsertIgnoresCase(positions: seq<PositionRow>, fundId: string, ticker: string, weight: real,
                          thesisId: Option<string>)
    ensures Upsert(positions, fundId, ticker, weight, thesisId)
            == Upsert(positions, fundId, Upper(ticker), weight, thesisId)
  {
    assert Upper(Upper(ticker)) == Upper(ticker);
  }

  /** Removing a position just added restores the table: remove undoes an insert. */
  lemma RemoveUndoesInsert(positions: seq<PositionRow>, fundId: string, ticker: string, weight: real,
                           thesisId: Option<string>)
    requires Matching(positions, JStr(fundId), JStr(Upper(ticker))) == []
    ensures Upsert(positions, fundId, ticker, weight, thesisId).Success?
    ensures Remove(Upsert(positions, fundId, ticker, weight, thesisId).value, fundId, ticker) == Success(positions)
  {
    var ps := positions + [NewPosition(fundId, ticker, weight, thesisId)];
    MatchingAppend(positions, NewPosition(fundId, ticker, weight, thesisId), JStr(fundId), JStr(Upper(ticker)));
    assert ps[..|positions|] + ps[|positions| + 1..] == positions;
  }

  /** The indices matching in a table with one more row. */
  lemma MatchingAppend(positions: seq<PositionRow>, p: PositionRow, fundId: Json, ticker: Json)
    ensures Matching(positions + [p], fundId, ticker)
            == Matching(positions, fundId, ticker) + (if p.fundId == fundId && p.ticker == ticker then [|positions|] else [])
  {
    assert (positions + [p])[..|positions|] == positions;
  }

  /** Removing deletes exactly that row, so no row with that ticker is left. */
  lemma RemoveDeletesTheRow(positions: seq<PositionRow>, fundId: string, ticker: string, k: nat)
    requires k < |positions| && Matching(positions, JStr(fundId), JStr(Upper(ticker))) == [k]
    ensures Remove(positions, fundId, ticker) == Success(positions[..k] + positions[k + 1..])
    ensures var ps := positions[..k] + positions[k + 1..];
            forall j :: 0 <= j < |ps| ==> !(ps[j].fundId == JStr(fundId) && ps[j].ticker == JStr(Upper(ticker)))
  {
    var ps := positions[..k] + positions[k + 1..];
    forall j | 0 <= j < |ps|
      ensures !(ps[j].fundId == JStr(fundId) && ps[j].ticker == JStr(Upper(ticker)))
    {
      var i := if j < k then j else j + 1;
      assert ps[j] == positions[i];
      assert i != k;
    }
  }

  /** A missing position is a 404, not a deletion. */
  lemma RemoveMissing(positions: seq<PositionRow>, fundId: string, ticker: string)
    requires Matching(positions, JStr(fundId), JStr(Upper(ticker))) == []
    ensures Remove(positions, fundId, ticker) == Failure(PositionNotFound)
  {
  }
}
