/** The thesis writer's prompt (backend/agents/research/thesis_writer_agent.py):
    each research result is shown with its internal underscore keys removed,
    missing results default to `{}`, and an empty one reads "No analysis
    available".  `json.dumps(…, indent=2)` is the parameter `dumps`. */
module ThesisWriter {
  import opened Wrappers
  import opened Text
  import opened JsonValues

  /** The writer works on the given research only: `run` takes the think path. */
  const NeedsSearch := false

  const NoAnalysis := "No analysis available"

  /** `{k: v for k, v in analysis.items() if not k.startswith("_")}`. */
  function Clean(analysis: Obj): (r: Obj)
    ensures forall k :: k in r <==> k in analysis && !StartsWith(k, "_")
    ensures forall k :: k in r ==> r[k] == analysis[k]
  {
    map k | k in analysis && !StartsWith(k, "_") :: analysis[k]
  }

  predicate Formattable(analysis: Json) {
    !Truthy(analysis) || analysis.JObj?
  }

  /** `_format_analysis`: a falsy value reads "No analysis available"; a dict is
      serialised without its underscore keys; anything else has no `.items()`. */
  function FormatAnalysis(analysis: Json, dumps: Json -> string): (r: Result<string, string>)
    ensures r.Success? <==> Formattable(analysis)
  {
    if !Truthy(analysis) then Success(NoAnalysis)
    else match analysis
      case JObj(m) => Success(dumps(JObj(Clean(m))))
      case _ => Failure("AttributeError: object has no attribute 'items'")
  }

  /** The filled-in parts of the writer's prompt. */
  datatype Prompt = Prompt(ticker: string, fundamentals: string, moat: string,
                           sentiment: string, valuation: string, task: string)

  /** `_build_prompt`: the research sections in the order fundamentals, moat,
      sentiment, valuation, then the agent's task. */
  function BuildPrompt(task: string, context: Obj, dumps: Json -> string, repr: Json -> string)
    : (r: Result<Prompt, string>)
    ensures r.Success? ==> r.value.task == task
    ensures r.Success? ==> r.value.ticker == PyStr(Lookup(context, "ticker", JStr("")), repr)
  {
    var ticker := PyStr(Lookup(context, "ticker", JStr("")), repr);
    match FormatAnalysis(Lookup(context, "fundamentals", EmptyObj), dumps)
    case Failure(e) => Failure(e)
    case Success(f) =>
      match FormatAnalysis(Lookup(context, "moat", EmptyObj), dumps)
      case Failure(e) => Failure(e)
      case Success(m) =>
        match FormatAnalysis(Lookup(context, "sentiment", EmptyObj), dumps)
        case Failure(e) => Failure(e)
        case Success(s) =>
          match FormatAnalysis(Lookup(context, "valuation", EmptyObj), dumps)
          case Failure(e) => Failure(e)
          case Success(v) =>
            Success(Prompt(ticker, f, m, s, v, task))
  }

  /** The text sent to the reasoning service: the template with its parts filled in. */
  function Render(p: Prompt): string {
    "Synthesize the following research into a complete investment thesis for "
    + p.ticker + ".\n\n=== FUNDAMENTALS ANALYSIS ===\n" + p.fundamentals
    + "\n\n=== MOAT ANALYSIS ===\n" + p.moat
    + "\n\n=== SENTIMENT ANALYSIS ===\n" + p.sentiment
    + "\n\n=== VALUATION ANALYSIS ===\n" + p.valuation
    + "\n\n=== YOUR TASK ===\n" + p.task
    + "\n\nWeigh all the evidence, resolve any conflicting signals, and produce a complete "
    + "investment thesis with a clear recommendation and position sizing suggestion.\n\n"
    + "Return your thesis as JSON following the format in your instructions."
  }

  /** An empty analysis reads "No analysis available"; a non-empty dict is
      serialised after the underscore filter, even when nothing survives it
      (`{"_error": …}` becomes `{}`). */
  lemma FormatCases(analysis: Obj, dumps: Json -> string)
    ensures analysis == map[] ==> FormatAnalysis(JObj(analysis), dumps) == Success(NoAnalysis)
    ensures analysis != map[] ==> FormatAnalysis(JObj(analysis), dumps) == Success(dumps(JObj(Clean(analysis))))
  {
  }

  /** A failed branch's record `{"_error": msg}` is serialised as an empty object. */
  lemma ErrorRecordFormatsEmpty(msg: string, dumps: Json -> string)
    ensures FormatAnalysis(JObj(map["_error" := JStr(msg)]), dumps) == Success(dumps(EmptyObj))
  {
    var m := map["_error" := JStr(msg)];
    assert StartsWith("_error", "_");
    assert Clean(m) == map[];
  }

  /** Filtering twice is filtering once, and keys without a leading underscore
      all survive. */
  lemma CleanIdempotent(analysis: Obj)
    ensures Clean(Clean(analysis)) == Clean(analysis)
    ensures (forall k :: k in analysis ==> !StartsWith(k, "_")) ==> Clean(analysis) == analysis
  {
  }

  /** Missing research keys default to `{}` and so read "No analysis available";
      a missing ticker reads as the empty string. */
  lemma MissingResearchDefaults(task: string, context: Obj, dumps: Json -> string, repr: Json -> string)
    requires "fundamentals" !in context && "moat" !in context
    requires "sentiment" !in context && "valuation" !in context
    ensures BuildPrompt(task, context, dumps, repr)
            == Success(Prompt(PyStr(Lookup(context, "ticker", JStr("")), repr),
                              NoAnalysis, NoAnalysis, NoAnalysis, NoAnalysis, task))
    ensures "ticker" !in context ==>
              BuildPrompt(task, context, dumps, repr)
              == Success(Prompt("", NoAnalysis, NoAnalysis, NoAnalysis, NoAnalysis, task))
  {
    assert FormatAnalysis(EmptyObj, dumps) == Success(NoAnalysis);
    assert Lookup(context, "fundamentals", EmptyObj) == EmptyObj;
    assert Lookup(context, "moat", EmptyObj) == EmptyObj;
    assert Lookup(context, "sentiment", EmptyObj) == EmptyObj;
    assert Lookup(context, "valuation", EmptyObj) == EmptyObj;
  }

  /** The prompt can be built exactly when every research value is falsy or a dict. */
  lemma BuildPromptSucceeds(task: string, context: Obj, dumps: Json -> string, repr: Json -> string)
    ensures BuildPrompt(task, context, dumps, repr).Success? <==>
      && Formattable(Lookup(context, "fundamentals", EmptyObj))
      && Formattable(Lookup(context, "moat", EmptyObj))
      && Formattable(Lookup(context, "sentiment", EmptyObj))
      && Formattable(Lookup(context, "valuation", EmptyObj))
  {
  }
}
