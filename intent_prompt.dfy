/** The intent interpreter's prompt
    (backend/agents/conversation/intent_interpreter_agent.py): the last ten
    history messages as "role: content" lines between a header and a footer,
    a fund-context block when a current fund is given, then the user message
    and the agent's task.  Python's `str()` of non-strings is the parameter `repr`. */
module IntentInterpreter {
  import opened Wrappers
  import opened JsonValues

  /** The interpreter works on the conversation only: `run` takes the think path. */
  const NeedsSearch := false

  /** How many of the latest messages the prompt shows. */
  const Window: nat := 10

  const HistoryHeader := "\n=== CONVERSATION HISTORY (USE THIS FOR CONTEXT) ===\n"
  const HistoryFooter := "=== END HISTORY ===\n"
  const FundHeader := "\n=== CURRENT FUND CONTEXT ===\nFund: "

  /** `xs[-n:]` on a list. */
  function Last(xs: seq<Json>, n: nat): (r: seq<Json>)
    ensures |r| == if |xs| < n then |xs| else n
    ensures r == xs[|xs| - |r|..]
  {
    if |xs| <= n then xs else xs[|xs| - n..]
  }

  /** `history[-10:]`: the last ten items of a list or characters of a string;
      slicing anything else raises `TypeError`. */
  function Recent(history: Json): (r: Result<seq<Json>, string>)
    ensures r.Success? <==> history.JArr? || history.JStr?
    ensures history.JArr? ==> r == Success(Last(history.items, Window))
  {
    match history
    case JArr(items) => Success(Last(items, Window))
    case JStr(s) => Success(Last(Chars(s), Window))
    case _ => Failure("TypeError: object is not subscriptable")
  }

  /** A message that can be shown: a dict holding "role" and "content". */
  predicate Showable(msg: Json) {
    msg.JObj? && "role" in msg.fields && "content" in msg.fields
  }

  /** `f"{msg['role']}: {msg['content']}\n"`: a dict without those keys raises
      `KeyError`, anything else `TypeError`. */
  function Line(msg: Json, repr: Json -> string): (r: Result<string, string>)
    ensures r.Success? <==> Showable(msg)
    ensures r.Success? ==>
      r.value == PyStr(msg.fields["role"], repr) + ": " + PyStr(msg.fields["content"], repr) + "\n"
  {
    match msg
    case JObj(m) =>
      if "role" !in m then Failure("KeyError: 'role'")
      else if "content" !in m then Failure("KeyError: 'content'")
      else Success(PyStr(m["role"], repr) + ": " + PyStr(m["content"], repr) + "\n")
    case _ => Failure("TypeError: string indices must be integers")
  }

  /** The lines of the messages, in order; the first unshowable one raises. */
  function Lines(msgs: seq<Json>, repr: Json -> string): (r: Result<string, string>)
    ensures r.Success? <==> forall k :: 0 <= k < |msgs| ==> Showable(msgs[k])
    decreases |msgs|
  {
    if msgs == [] then Success("")
    else match Lines(msgs[..|msgs| - 1], repr)
      case Failure(e) => Failure(e)
      case Success(prefix) =>
        match Line(msgs[|msgs| - 1], repr)
        case Failure(e) => Failure(e)
        case Success(l) => Success(prefix + l)
  }

  /** The history block: empty for a falsy history, else header, lines, footer. */
  function HistoryText(history: Json, repr: Json -> string): Result<string, string> {
    if !Truthy(history) then Success("")
    else match Recent(history)
      case Failure(e) => Failure(e)
      case Success(recent) =>
        match Lines(recent, repr)
        case Failure(e) => Failure(e)
        case Success(body) => Success(HistoryHeader + body + HistoryFooter)
  }

  /** The loop of `_build_prompt` that builds `history_str`. */
  method BuildHistory(history: Json, repr: Json -> string) returns (r: Result<string, string>)
    ensures r == HistoryText(history, repr)
  {
    if !Truthy(history) {
      return Success("");
    }
    var recent := Recent(history);
    if recent.Failure? {
      return Failure(recent.error);
    }
    var body := AppendLines(recent.value, repr);
    if body.Failure? {
      return Failure(body.error);
    }
    return Success(HistoryHeader + body.value + HistoryFooter);
  }

  /** `history_str += f"{msg['role']}: {msg['content']}\n"` for each message. */
  method AppendLines(msgs: seq<Json>, repr: Json -> string) returns (r: Result<string, string>)
    ensures r == Lines(msgs, repr)
  {
    var text := "";
    var i := 0;
    while i < |msgs|
      invariant 0 <= i <= |msgs|
      invariant Lines(msgs[..i], repr) == Success(text)
    {
      var line := Line(msgs[i], repr);
      LinesStep(msgs, i, repr);
      if line.Failure? {
        LinesFailurePropagates(msgs, i + 1, line.error, repr);
        return Failure(line.error);
      }
      text := text + line.value;
      i := i + 1;
    }
    assert msgs[..i] == msgs;
    return Success(text);
  }

  /** The fund-context block: only for a truthy fund, whose `.get` then needs a dict. */
  function FundContext(currentFund: Json, repr: Json -> string): (r: Result<string, string>)
    ensures !Truthy(currentFund) ==> r == Success("")
    ensures Truthy(currentFund) ==> (r.Success? <==> currentFund.JObj?)
  {
    if !Truthy(currentFund) then Success("")
    else match Get(currentFund, "name", JStr("Unknown"))
      case Failure(e) => Failure(e)
      case Success(name) => Success(FundHeader + PyStr(name, repr) + "\n")
  }

  /** The template of `_build_prompt` with its parts filled in. */
  function Render(history: string, fund: string, message: string, task: string): string {
    "Parse the user's intent from this message. USE THE CONVERSATION HISTORY to understand context.\n"
    + history + "\n" + fund + "\n=== CURRENT USER MESSAGE ===\n" + message
    + "\n\n" + task + "\n\nREMEMBER: Be decisive. If user has been discussing creating a fund, "
    + "and now says something like \"go for it\" or \"make it\" or \"yes\", the intent is CREATE_FUND.\n\n"
    + "Return the parsed intent as JSON following the format in your instructions."
  }

  /** The whole prompt: the history block, the fund block, then the message and task. */
  function PromptText(task: string, context: Obj, repr: Json -> string): (r: Result<string, string>)
    ensures (Truthy(Lookup(context, "current_fund", JNull)) && !Lookup(context, "current_fund", JNull).JObj?)
            ==> r.Failure?
    ensures (!Truthy(Lookup(context, "history", JArr([]))) && !Truthy(Lookup(context, "current_fund", JNull)))
            ==> r == Success(Render("", "", PyStr(Lookup(context, "message", JStr("")), repr), task))
  {
    match HistoryText(Lookup(context, "history", JArr([])), repr)
    case Failure(e) => Failure(e)
    case Success(history) =>
      match FundContext(Lookup(context, "current_fund", JNull), repr)
      case Failure(e) => Failure(e)
      case Success(fund) =>
        Success(Render(history, fund, PyStr(Lookup(context, "message", JStr("")), repr), task))
  }

  /** `_build_prompt`. */
  method BuildPrompt(task: string, context: Obj, repr: Json -> string) returns (r: Result<string, string>)
    ensures r == PromptText(task, context, repr)
  {
    var message := Lookup(context, "message", JStr(""));
    var history := BuildHistory(Lookup(context, "history", JArr([])), repr);
    if history.Failure? {
      return Failure(history.error);
    }
    var fund := FundContext(Lookup(context, "current_fund", JNull), repr);
    if fund.Failure? {
      return Failure(fund.error);
    }
    r := Success(Render(history.value, fund.value, PyStr(message, repr), task));
  }

  // ---------------------------------------------------------------------
  // Properties

  /** One more message: its line is appended, or its failure is the result. */
  lemma LinesStep(msgs: seq<Json>, i: nat, repr: Json -> string)
    requires i < |msgs| && Lines(msgs[..i], repr).Success?
    ensures Line(msgs[i], repr).Success? ==>
              Lines(msgs[..i + 1], repr) == Success(Lines(msgs[..i], repr).value + Line(msgs[i], repr).value)
    ensures Line(msgs[i], repr).Failure? ==> Lines(msgs[..i + 1], repr) == Failure(Line(msgs[i], repr).error)
  {
    assert msgs[..i + 1][..i] == msgs[..i];
  }

  /** Once the lines of a prefix fail, the lines of the whole list fail the same way. */
  lemma {:induction false} LinesFailurePropagates(msgs: seq<Json>, n: nat, e: string, repr: Json -> string)
    requires 0 < n <= |msgs|
    requires Lines(msgs[..n], repr) == Failure(e)
    ensures Lines(msgs, repr) == Failure(e)
    decreases |msgs| - n
  {
    if n == |msgs| {
      assert msgs[..n] == msgs;
    } else {
      assert msgs[..n + 1][..n] == msgs[..n];
      LinesFailurePropagates(msgs, n + 1, e, repr);
    }
  }

  /** The lines of well-formed messages are their "role: content" lines in order. */
  function LineOf(msg: Json, repr: Json -> string): string
    requires Showable(msg)
  {
    PyStr(msg.fields["role"], repr) + ": " + PyStr(msg.fields["content"], repr) + "\n"
  }

  function ConcatLines(msgs: seq<Json>, repr: Json -> string): string
    requires forall k :: 0 <= k < |msgs| ==> Showable(msgs[k])
    decreases |msgs|
  {
    if msgs == [] then "" else ConcatLines(msgs[..|msgs| - 1], repr) + LineOf(msgs[|msgs| - 1], repr)
  }

  /** Showable messages give one line each, oldest first. */
  lemma {:induction false} LinesInOrder(msgs: seq<Json>, repr: Json -> string)
    requires forall k :: 0 <= k < |msgs| ==> Showable(msgs[k])
    ensures Lines(msgs, repr) == Success(ConcatLines(msgs, repr))
  {
    if msgs != [] {
      LinesInOrder(msgs[..|msgs| - 1], repr);
    }
  }

  /** Only the last ten messages are shown: older ones never affect the block. */
  lemma OlderMessagesIgnored(older: seq<Json>, recent: seq<Json>, repr: Json -> string)
    requires |recent| == Window
    ensures HistoryText(JArr(older + recent), repr) == HistoryText(JArr(recent), repr)
  {
    var all := older + recent;
    assert all[|all| - Window..] == recent;
  }

  /** A non-empty list of well-formed messages shows its last (at most) ten as
      "role: content" lines between the header and the footer. */
  lemma HistoryBlock(msgs: seq<Json>, repr: Json -> string)
    requires msgs != []
    requires forall k :: 0 <= k < |msgs| ==> Showable(msgs[k])
    ensures HistoryText(JArr(msgs), repr)
            == Success(HistoryHeader + ConcatLines(Last(msgs, Window), repr) + HistoryFooter)
  {
    var recent := Last(msgs, Window);
    assert forall k :: 0 <= k < |recent| ==> recent[k] == msgs[|msgs| - |recent| + k];
    LinesInOrder(recent, repr);
  }

  /** An empty or missing history adds no block at all. */
  lemma NoHistoryNoBlock(context: Obj, repr: Json -> string)
    requires !Truthy(Lookup(context, "history", JArr([])))
    ensures HistoryText(Lookup(context, "history", JArr([])), repr) == Success("")
  {
  }

  /** The fund block appears exactly for a truthy current fund (which must then
      be a dict), and a fund without a name reads "Unknown". */
  lemma FundBlockRule(currentFund: Json, repr: Json -> string)
    ensures FundContext(currentFund, repr) == Success("") <==> !Truthy(currentFund)
    ensures currentFund.JObj? && Truthy(currentFund) && "name" !in currentFund.fields ==>
              FundContext(currentFund, repr) == Success(FundHeader + "Unknown\n")
  {
    if Truthy(currentFund) && currentFund.JObj? {
      var name := Lookup(currentFund.fields, "name", JStr("Unknown"));
      assert FundContext(currentFund, repr) == Success(FundHeader + PyStr(name, repr) + "\n");
      assert |FundHeader + PyStr(name, repr) + "\n"| > 0;
      if "name" !in currentFund.fields {
        assert FundHeader + PyStr(name, repr) + "\n" == FundHeader + "Unknown\n";
      }
    }
  }

  /** The chat route passes no current fund, so its prompts carry no fund block. */
  lemma ChatRouteHasNoFundBlock(message: string, history: seq<Json>, repr: Json -> string)
    ensures FundContext(Lookup(map["message" := JStr(message), "history" := JArr(history),
                                   "current_fund" := JNull], "current_fund", JNull), repr) == Success("")
  {
  }
}
