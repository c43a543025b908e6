/** Single-stock analysis (backend/orchestrator/pipelines/analysis_pipeline.py):
    four research branches in a fixed order, one synthesis call by the thesis
    writer, and the combined result.  The branches' outcomes are inputs in task
    order; the reasoning service the writer calls is the parameter `service`,
    applied to the prompt's parts (`ThesisWriter.Render` lays them out). */
module AnalysisPipeline {
  import opened Wrappers
  import opened Text
  import opened JsonValues
  import BaseAgent
  import ThesisWriter

  /** The research slots, in task order. */
  const Slots: seq<string> := ["fundamentals", "moat", "sentiment", "valuation"]

  /** What the synthesis step sees for a branch: a failure becomes `{}`. */
  function ForSynthesis(branch: Result<Obj, string>): Json {
    match branch
    case Success(o) => JObj(o)
    case Failure(_) => EmptyObj
  }

  /** What the returned research holds for a branch: a failure becomes
      `{"_error": str(e)}`. */
  function ForResearch(branch: Result<Obj, string>): Json {
    JObj(BaseAgent.Settled(branch))
  }

  /** The synthesis context. */
  function SynthesisContext(ticker: string, branches: seq<Result<Obj, string>>): (r: Obj)
    requires |branches| == 4
    ensures r.Keys == {"ticker", "fundamentals", "moat", "sentiment", "valuation"}
    ensures r["ticker"] == JStr(ticker)
    ensures forall k :: 0 <= k < 4 ==> r[Slots[k]] == ForSynthesis(branches[k])
  {
    map["ticker" := JStr(ticker),
        "fundamentals" := ForSynthesis(branches[0]),
        "moat" := ForSynthesis(branches[1]),
        "sentiment" := ForSynthesis(branches[2]),
        "valuation" := ForSynthesis(branches[3])]
  }

  /** The `research` part of the result. */
  function ResearchRecord(branches: seq<Result<Obj, string>>): (r: Obj)
    requires |branches| == 4
    ensures r.Keys == {"fundamentals", "moat", "sentiment", "valuation"}
    ensures forall k :: 0 <= k < 4 ==> r[Slots[k]] == ForResearch(branches[k])
  {
    map["fundamentals" := ForResearch(branches[0]),
        "moat" := ForResearch(branches[1]),
        "sentiment" := ForResearch(branches[2]),
        "valuation" := ForResearch(branches[3])]
  }

  /** The writer's task text; the extra context is appended only when truthy. */
  function AnalysisTask(ticker: string, additional: Option<string>): string {
    var base := "Create a complete investment thesis for " + ticker + ".";
    if additional.Some? && additional.value != "" then base + " Additional context: " + additional.value
    else base
  }

  /** `_collect_sources` as a specification: the `_sources` items of the
      successful dict results, in order; `extend` needs an iterable. */
  function Collected(analyses: seq<Result<Obj, string>>): Result<seq<Json>, string> {
    if analyses == [] then Success([])
    else
      var n := |analyses| - 1;
      match Collected(analyses[..n])
      case Failure(e) => Failure(e)
      case Success(acc) =>
        if analyses[n].Success? && "_sources" in analyses[n].value then
          match Iterate(analyses[n].value["_sources"])
          case Failure(e) => Failure(e)
          case Success(items) => Success(acc + items)
        else Success(acc)
  }

  /** `_collect_sources`: the loop extending `sources`. */
  method CollectSources(analyses: seq<Result<Obj, string>>) returns (r: Result<seq<Json>, string>)
    ensures r == Collected(analyses)
  {
    var sources: seq<Json> := [];
    for i := 0 to |analyses|
      invariant Collected(analyses[..i]) == Success(sources)
    {
      assert analyses[..i + 1][..i] == analyses[..i];
      var a := analyses[i];
      if a.Success? && "_sources" in a.value {
        var items := Iterate(a.value["_sources"]);
        if items.Failure? {
          CollectedFailureSticks(analyses, i + 1);
          return Failure(items.error);
        }
        sources := sources + items.value;
      }
    }
    assert analyses[..|analyses|] == analyses;
    return Success(sources);
  }

  /** Once `extend` has raised, the collection has failed with that exception. */
  lemma {:induction false} CollectedFailureSticks(analyses: seq<Result<Obj, string>>, n: nat)
    requires n <= |analyses| && Collected(analyses[..n]).Failure?
    ensures Collected(analyses) == Collected(analyses[..n])
    decreases |analyses| - n
  {
    if n < |analyses| {
      assert analyses[..n + 1][..n] == analyses[..n];
      CollectedFailureSticks(analyses, n + 1);
    } else {
      assert analyses[..n] == analyses;
    }
  }

  /** The sources of the successful dict results that carry `_sources`, each a list. */
  predicate ListSources(a: Result<Obj, string>) {
    a.Success? && "_sources" in a.value && a.value["_sources"].JArr?
  }

  function SourcesOf(a: Result<Obj, string>): seq<Json> {
    if ListSources(a) then a.value["_sources"].items else []
  }

  /** With list-valued `_sources`, the collected sources are their in-order
      concatenation, and a failed branch or one without `_sources` adds nothing. */
  lemma {:induction false} CollectedIsConcatenation(analyses: seq<Result<Obj, string>>)
    requires forall k :: 0 <= k < |analyses| ==>
               analyses[k].Success? && "_sources" in analyses[k].value ==> analyses[k].value["_sources"].JArr?
    ensures Collected(analyses) == Success(ConcatSources(analyses))
  {
    if analyses != [] {
      var n := |analyses| - 1;
      assert forall k :: 0 <= k < n ==> analyses[..n][k] == analyses[k];
      CollectedIsConcatenation(analyses[..n]);
      var last := analyses[n];
      if last.Success? && "_sources" in last.value {
        assert last.value["_sources"].JArr?;
        assert Iterate(last.value["_sources"]) == Success(SourcesOf(last));
      } else {
        assert SourcesOf(last) == [];
        assert ConcatSources(analyses) == ConcatSources(analyses[..n]) + [] == ConcatSources(analyses[..n]);
      }
    }
  }

  function ConcatSources(analyses: seq<Result<Obj, string>>): seq<Json> {
    if analyses == [] then []
    else ConcatSources(analyses[..|analyses| - 1]) + SourcesOf(analyses[|analyses| - 1])
  }

  /** Collecting over a concatenation is collecting over the two parts. */
  lemma {:induction false} CollectedAppend(a: seq<Result<Obj, string>>, b: seq<Result<Obj, string>>)
    requires Collected(a).Success? && Collected(b).Success?
    ensures Collected(a + b) == Success(Collected(a).value + Collected(b).value)
    decreases |b|
  {
    if b == [] {
      assert a + b == a;
      assert Collected(a).value + [] == Collected(a).value;
    } else {
      var n := |b| - 1;
      assert (a + b)[..|a| + n] == a + b[..n];
      assert (a + b)[|a| + n] == b[n];
      CollectedPrefix(b, n);
      CollectedAppend(a, b[..n]);
      var ca, cb := Collected(a).value, Collected(b[..n]).value;
      assert Collected((a + b)[..|a| + n]) == Success(ca + cb);
      if b[n].Success? && "_sources" in b[n].value {
        var items := Iterate(b[n].value["_sources"]).value;
        assert Collected(b) == Success(cb + items);
        assert Collected(a + b) == Success(ca + cb + items);
        assert ca + cb + items == ca + (cb + items);
      } else {
        assert Collected(b) == Success(cb);
      }
    }
  }

  /** A prefix of a successful collection succeeds too. */
  lemma {:induction false} CollectedPrefix(b: seq<Result<Obj, string>>, n: nat)
    requires n <= |b| && Collected(b).Success?
    ensures Collected(b[..n]).Success?
    decreases |b| - n
  {
    if n == |b| {
      assert b[..n] == b;
    } else {
      CollectedPrefix(b, n + 1);
      assert b[..n + 1][..n] == b[..n];
    }
  }

  /** `AnalysisPipeline.analyze` after the research branches: the thesis writer
      runs once on the synthesis context (think path); the thesis must be a
      dict for the closing `thesis.get` calls. */
  function Analyze(ticker: string, additional: Option<string>, branches: seq<Result<Obj, string>>,
                   service: ThesisWriter.Prompt -> Result<BaseAgent.Reply, string>, loads: string -> Option<Json>,
                   dumps: Json -> string, repr: Json -> string): (r: Result<Json, string>)
    requires |branches| == 4
    ensures r.Success? ==> r.value.JObj? && r.value.fields.Keys == {"ticker", "thesis", "research", "sources"}
    ensures r.Success? ==> r.value.fields["ticker"] == JStr(ticker) && r.value.fields["thesis"].JObj?
    ensures r.Success? ==> r.value.fields["research"] == JObj(ResearchRecord(branches))
                           && Collected(branches).Success?
                           && r.value.fields["sources"] == JArr(Collected(branches).value)
  {
    Combine(ticker, branches, WriterOutcome(ticker, additional, branches, service, loads, dumps, repr))
  }

  /** Step 3: the result built from the branches and the writer's outcome. */
  function Combine(ticker: string, branches: seq<Result<Obj, string>>, writer: Result<Json, string>)
    : (r: Result<Json, string>)
    requires |branches| == 4
    ensures r.Success? ==> r.value.JObj? && r.value.fields.Keys == {"ticker", "thesis", "research", "sources"}
    ensures r.Success? ==> r.value.fields["ticker"] == JStr(ticker) && r.value.fields["thesis"].JObj?
    ensures r.Success? ==> r.value.fields["research"] == JObj(ResearchRecord(branches))
                           && Collected(branches).Success?
                           && r.value.fields["sources"] == JArr(Collected(branches).value)
  {
    match writer
    case Failure(e) => Failure(e)
    case Success(thesis) =>
      match Collected(branches)
      case Failure(e) => Failure(e)
      case Success(sources) =>
        if !thesis.JObj? then Failure("AttributeError: object has no attribute 'get'")
        else Success(JObj(map["ticker" := JStr(ticker), "thesis" := thesis,
                              "research" := JObj(ResearchRecord(branches)),
                              "sources" := JArr(sources)]))
  }

  /** `thesis_writer.run(task, context)`. */
  function WriterOutcome(ticker: string, additional: Option<string>, branches: seq<Result<Obj, string>>,
                         service: ThesisWriter.Prompt -> Result<BaseAgent.Reply, string>, loads: string -> Option<Json>,
                         dumps: Json -> string, repr: Json -> string): Result<Json, string>
    requires |branches| == 4
  {
    match ThesisWriter.BuildPrompt(AnalysisTask(ticker, additional), SynthesisContext(ticker, branches), dumps, repr)
    case Failure(e) => Failure(e)
    case Success(prompt) => BaseAgent.Run(ThesisWriter.NeedsSearch, service(prompt), loads)
  }

  // ---------------------------------------------------------------------
  // Properties

  /** A failed branch is `{}` for the synthesis step but `{"_error": msg}` in the
      returned research; a successful one is the same dict in both. */
  lemma FailureViews(ticker: string, branches: seq<Result<Obj, string>>, k: nat)
    requires |branches| == 4 && k < 4
    ensures branches[k].Failure? ==>
              SynthesisContext(ticker, branches)[Slots[k]] == EmptyObj
              && ResearchRecord(branches)[Slots[k]] == JObj(map["_error" := JStr(branches[k].error)])
    ensures branches[k].Success? ==>
              SynthesisContext(ticker, branches)[Slots[k]] == JObj(branches[k].value)
              == ResearchRecord(branches)[Slots[k]]
  {
  }

  /** The synthesis context can always be shown to the writer: every slot is a dict. */
  lemma ContextAlwaysFormats(ticker: string, additional: Option<string>, branches: seq<Result<Obj, string>>,
                             dumps: Json -> string, repr: Json -> string)
    requires |branches| == 4
    ensures ThesisWriter.BuildPrompt(AnalysisTask(ticker, additional), SynthesisContext(ticker, branches), dumps, repr).Success?
  {
    var ctx := SynthesisContext(ticker, branches);
    assert ctx["fundamentals"].JObj? && ctx["moat"].JObj? && ctx["sentiment"].JObj? && ctx["valuation"].JObj?;
    ThesisWriter.BuildPromptSucceeds(AnalysisTask(ticker, additional), ctx, dumps, repr);
  }

  /** The writer runs however many branches failed: when its outcome is a dict
      and the sources collect, the analysis succeeds and carries the input
      ticker, exactly that thesis, the research record and the sources. */
  lemma WriterRunsDespiteFailures(ticker: string, branches: seq<Result<Obj, string>>, writer: Result<Json, string>)
    requires |branches| == 4
    requires writer.Success? && writer.value.JObj?
    requires Collected(branches).Success?
    ensures Combine(ticker, branches, writer)
            == Success(JObj(map["ticker" := JStr(ticker), "thesis" := writer.value,
                                "research" := JObj(ResearchRecord(branches)),
                                "sources" := JArr(Collected(branches).value)]))
  {
  }

  /** The analysis fails exactly when the writer fails, the sources cannot be
      collected, or the thesis is not a dict. */
  lemma AnalysisFailures(ticker: string, branches: seq<Result<Obj, string>>, writer: Result<Json, string>)
    requires |branches| == 4
    ensures Combine(ticker, branches, writer).Failure? <==>
              writer.Failure? || Collected(branches).Failure? || !writer.value.JObj?
  {
  }

  /** The writer's result is its reply parsed on the think path, with no
      `_sources` added. */
  lemma WriterTakesThinkPath(ticker: string, additional: Option<string>, branches: seq<Result<Obj, string>>,
                             service: ThesisWriter.Prompt -> Result<BaseAgent.Reply, string>, loads: string -> Option<Json>,
                             dumps: Json -> string, repr: Json -> string)
    requires |branches| == 4
    ensures var prompt := ThesisWriter.BuildPrompt(AnalysisTask(ticker, additional), SynthesisContext(ticker, branches), dumps, repr);
      && prompt.Success?
      && (service(prompt.value).Success? ==>
            WriterOutcome(ticker, additional, branches, service, loads, dumps, repr)
            == Success(BaseAgent.ParseJson(service(prompt.value).value.text, loads)))
  {
    ContextAlwaysFormats(ticker, additional, branches, dumps, repr);
  }

  /** The task names the ticker, and the extra context follows only when given. */
  lemma TaskText(ticker: string, additional: Option<string>)
    ensures additional.None? || additional == Some("") ==>
              AnalysisTask(ticker, additional) == "Create a complete investment thesis for " + ticker + "."
    ensures additional.Some? && additional.value != "" ==>
              AnalysisTask(ticker, additional)
              == "Create a complete investment thesis for " + ticker + ". Additional context: " + additional.value
  {
  }
}
