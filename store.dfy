/** The tables the routes and jobs read and write, held in memory.  Rows are
    kept in insertion order; a query without ORDER BY visits them in that
    order.  A request that raises leaves every table as it was, because the
    session is rolled back (backend/database/connection.py). */
module Store {
  import opened Wrappers
  import opened JsonValues
  import Text
  import Conversations
  import ThesisModel

  /** An HTTP error response: status code and `detail`. */
  datatype HttpError = HttpError(status: nat, detail: string)

  /** A `funds` row (backend/models/fund.py).  Columns filled from agent
      output hold whatever JSON value they were given. */
  datatype FundRow = FundRow(
    id: string, name: string, slug: Option<string>, mandate: Json, category: Json,
    benchmarkPrimary: Json, benchmarkSecondary: Json, peerFunds: Json, config: Json,
    status: string, inceptionDate: Option<string>)

  /** A `positions` row (backend/models/position.py). */
  datatype PositionRow = PositionRow(
    fundId: Json, ticker: Json, companyName: Json, targetWeight: Json, currentWeight: Json,
    thesisId: Option<string>, status: string, currentPrice: Option<real>)

  /** An `alerts` row. */
  datatype AlertRow = AlertRow(
    fundId: string, kind: string, ticker: Json, title: string, message: Json,
    severity: string, actionRequired: bool, actionOptions: Option<seq<string>>)

  /** A `risk_reports` row (backend/models/risk_report.py). */
  datatype RiskReportRow = RiskReportRow(
    fundId: string, reportDate: string, varDaily95: Option<string>, varDaily99: Option<string>,
    stressTests: Json, monteCarlo: Json, correlations: Json, flags: Json, recommendations: Json)

  /** A `theses` row with its generated id. */
  datatype ThesisRow = ThesisRow(id: string, thesis: ThesisModel.Thesis)

  class Database {
    var funds: seq<FundRow>
    var positions: seq<PositionRow>
    var theses: seq<ThesisRow>
    var alerts: seq<AlertRow>
    var riskReports: seq<RiskReportRow>
    var conversations: map<string, Conversations.Record>

    constructor ()
      ensures funds == [] && positions == [] && theses == [] && alerts == []
      ensures riskReports == [] && conversations == map[]
    {
      funds := [];
      positions := [];
      theses := [];
      alerts := [];
      riskReports := [];
      conversations := map[];
    }
  }

  /** `select(Fund).where(Fund.id == id)`: the primary key finds at most one row. */
  function FundIndex(funds: seq<FundRow>, id: string): (r: Option<nat>)
    ensures r.Some? ==> r.value < |funds| && funds[r.value].id == id
    ensures r.Some? ==> forall k :: 0 <= k < r.value ==> funds[k].id != id
    ensures r.None? ==> forall k :: 0 <= k < |funds| ==> funds[k].id != id
  {
    if funds == [] then None
    else if funds[0].id == id then Some(0)
    else match FundIndex(funds[1..], id)
      case None => None
      case Some(k) => Some(k + 1)
  }

  /** Some fund row already uses this slug (the column is unique). */
  predicate SlugTaken(funds: seq<FundRow>, slug: string) {
    exists k :: 0 <= k < |funds| && funds[k].slug == Some(slug)
  }

  /** The positions of a fund with a given ticker, as row indices in table order. */
  function Matching(positions: seq<PositionRow>, fundId: Json, ticker: Json): (r: seq<nat>)
    ensures forall k :: 0 <= k < |r| ==> r[k] < |positions|
    ensures forall k :: 0 <= k < |r| ==> positions[r[k]].fundId == fundId && positions[r[k]].ticker == ticker
    ensures forall k :: 0 <= k < |positions| && positions[k].fundId == fundId && positions[k].ticker == ticker
              ==> k in r
    ensures forall i, j :: 0 <= i < j < |r| ==> r[i] < r[j]
    decreases |positions|
  {
    if positions == [] then []
    else
      var p := positions[|positions| - 1];
      var before := Matching(positions[..|positions| - 1], fundId, ticker);
      if p.fundId == fundId && p.ticker == ticker then before + [|positions| - 1] else before
  }

  /** `scalar_one_or_none()` over those rows: none, the one, or an error for several. */
  function OneOrNone(matches: seq<nat>): (r: Result<Option<nat>, HttpError>)
    ensures r.Success? <==> |matches| <= 1
    ensures |matches| == 1 ==> r == Success(Some(matches[0]))
    ensures matches == [] ==> r == Success(None)
  {
    if matches == [] then Success(None)
    else if |matches| == 1 then Success(Some(matches[0]))
    else Failure(HttpError(500, "MultipleResultsFound"))
  }

  /** `select(Fund).where(Fund.status == "active")`, in table order. */
  function ActiveFunds(funds: seq<FundRow>): (r: seq<FundRow>)
    ensures |r| <= |funds|
    ensures forall k :: 0 <= k < |r| ==> r[k] in funds && r[k].status == "active"
    ensures forall f :: f in funds && f.status == "active" ==> f in r
    decreases |funds|
  {
    if funds == [] then []
    else (if funds[0].status == "active" then [funds[0]] else []) + ActiveFunds(funds[1..])
  }

  /** Active positions of a fund, in table order. */
  function ActivePositions(positions: seq<PositionRow>, fundId: string): (r: seq<PositionRow>)
    ensures |r| <= |positions|
    ensures forall k :: 0 <= k < |r| ==> r[k] in positions && r[k].fundId == JStr(fundId) && r[k].status == "active"
    ensures forall p :: p in positions && p.fundId == JStr(fundId) && p.status == "active" ==> p in r
    decreases |positions|
  {
    if positions == [] then []
    else
      var p := positions[0];
      (if p.fundId == JStr(fundId) && p.status == "active" then [p] else [])
      + ActivePositions(positions[1..], fundId)
  }

  /** `float(x or 0)` on a numeric column: falsy reads 0, a number itself,
      `True` 1; a string is parsed as a decimal literal. */
  function FloatOr0(x: Json): (r: Result<real, string>)
    ensures !Truthy(x) ==> r == Success(0.0)
    ensures x.JNum? ==> r == Success(x.n)
  {
    if !Truthy(x) then Success(0.0)
    else match x
      case JNum(n) => Success(n)
      case JBool(_) => Success(1.0)
      case JStr(s) =>
        (match Text.ParseDecimal(s)
         case Some(v) => Success(v)
         case None => Failure("ValueError: could not convert string to float"))
      case _ => Failure("TypeError: float() argument must be a string or a number")
  }

  // ---------------------------------------------------------------------
  // The two queries keep table order and every selected row

  /** Selecting from two stretches of the table selects from each, in order. */
  lemma {:induction false} ActiveFundsConcat(a: seq<FundRow>, b: seq<FundRow>)
    ensures ActiveFunds(a + b) == ActiveFunds(a) + ActiveFunds(b)
    decreases |a|
  {
    if a != [] {
      assert (a + b)[1..] == a[1..] + b;
      ActiveFundsConcat(a[1..], b);
    } else {
      assert a + b == b;
    }
  }

  /** Selecting from two stretches of the table selects from each, in order. */
  lemma {:induction false} ActivePositionsConcat(a: seq<PositionRow>, b: seq<PositionRow>, fundId: string)
    ensures ActivePositions(a + b, fundId) == ActivePositions(a, fundId) + ActivePositions(b, fundId)
    decreases |a|
  {
    if a != [] {
      assert (a + b)[1..] == a[1..] + b;
      ActivePositionsConcat(a[1..], b, fundId);
    } else {
      assert a + b == b;
    }
  }

  /** A selected position row occurs as often as in the table; any other row
      not at all. */
  lemma {:induction false} ActivePositionsCount(positions: seq<PositionRow>, fundId: string, p: PositionRow)
    ensures multiset(ActivePositions(positions, fundId))[p]
            == if Selected(p, fundId) then multiset(positions)[p] else 0
    decreases |positions|
  {
    if positions != [] {
      var h, rest := positions[0], positions[1..];
      ActivePositionsCount(rest, fundId, p);
      assert positions == [h] + rest;
      if Selected(h, fundId) {
        assert ActivePositions(positions, fundId) == [h] + ActivePositions(rest, fundId);
      } else {
        assert ActivePositions(positions, fundId) == ActivePositions(rest, fundId);
        assert h != p || !Selected(p, fundId);
      }
    }
  }

  /** The rows `ActivePositions` selects. */
  predicate Selected(p: PositionRow, fundId: string) {
    p.fundId == JStr(fundId) && p.status == "active"
  }

  /** The same for funds. */
  lemma {:induction false} ActiveFundsCount(funds: seq<FundRow>, f: FundRow)
    ensures multiset(ActiveFunds(funds))[f] == if f.status == "active" then multiset(funds)[f] else 0
    decreases |funds|
  {
    if funds != [] {
      var h, rest := funds[0], funds[1..];
      ActiveFundsCount(rest, f);
      assert funds == [h] + rest;
      if h.status == "active" {
        assert ActiveFunds(funds) == [h] + ActiveFunds(rest);
      } else {
        assert ActiveFunds(funds) == ActiveFunds(rest);
        assert h != f || f.status != "active";
      }
    }
  }

  /** `funds.id` is the primary key. */
  predicate UniqueIds(funds: seq<FundRow>) {
    forall i, j :: 0 <= i < |funds| && 0 <= j < |funds| && funds[i].id == funds[j].id ==> i == j
  }

  /** How many rows carry this fund id. */
  function IdCount(funds: seq<FundRow>, id: string): (r: nat)
    ensures r <= |funds|
    decreases |funds|
  {
    if funds == [] then 0
    else (if funds[0].id == id then 1 else 0) + IdCount(funds[1..], id)
  }

  lemma {:induction false} IdCountConcat(a: seq<FundRow>, b: seq<FundRow>, id: string)
    ensures IdCount(a + b, id) == IdCount(a, id) + IdCount(b, id)
    decreases |a|
  {
    if a != [] {
      assert (a + b)[1..] == a[1..] + b;
      IdCountConcat(a[1..], b, id);
    } else {
      assert a + b == b;
    }
  }

  lemma {:induction false} IdCountZero(funds: seq<FundRow>, id: string)
    requires forall g :: g in funds ==> g.id != id
    ensures IdCount(funds, id) == 0
    decreases |funds|
  {
    if funds != [] {
      assert funds[0] in funds;
      IdCountZero(funds[1..], id);
    }
  }

  /** With the primary key, an active fund is selected exactly once. */
  lemma {:induction false} ActiveFundOnce(funds: seq<FundRow>, f: FundRow)
    requires UniqueIds(funds) && f in funds && f.status == "active"
    ensures IdCount(ActiveFunds(funds), f.id) == 1
    decreases |funds|
  {
    var h, rest := funds[0], funds[1..];
    assert funds == [h] + rest;
    var head: seq<FundRow> := if h.status == "active" then [h] else [];
    assert ActiveFunds(funds) == head + ActiveFunds(rest);
    IdCountConcat(head, ActiveFunds(rest), f.id);
    if h == f {
      forall g | g in ActiveFunds(rest) ensures g.id != f.id {
        var j :| 0 <= j < |rest| && rest[j] == g;
        assert funds[j + 1] == g;
      }
      IdCountZero(ActiveFunds(rest), f.id);
      assert IdCount(head, f.id) == 1;
    } else {
      var j :| 0 <= j < |funds| && funds[j] == f;
      assert j != 0;
      assert h.id != f.id;
      assert UniqueIds(rest) by {
        forall a, b | 0 <= a < |rest| && 0 <= b < |rest| && rest[a].id == rest[b].id ensures a == b {
          assert funds[a + 1].id == funds[b + 1].id;
        }
      }
      assert f in rest by { assert rest[j - 1] == f; }
      ActiveFundOnce(rest, f);
      assert IdCount(head, f.id) == 0;
    }
  }
}
