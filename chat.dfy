/** The chat endpoint (backend/api/routes/chat.py, `chat`): load or start a
    conversation, add the user's message, ask the intent interpreter, act on
    the intent, add the assistant's reply, commit.  Anything raised inside
    becomes a 500 whose detail is the exception text, and the session rolls
    back.  The interpreter's reply, generated ids and timestamps are inputs. */
module ChatRoute {
  import opened Wrappers
  import opened JsonValues
  import opened Text
  import opened Store
  import opened Conversations
  import ChatNaming
  import IntentInterpreter
  import BaseAgent

  datatype ChatRequest = ChatRequest(message: string, conversationId: Option<string>, fundId: Option<string>)

  /** The response model: its `message` is declared `str`. */
  datatype ChatResponse = ChatResponse(
    message: string, conversationId: string, intent: string,
    data: Option<Obj>, actions: Option<seq<string>>)

  /** The values handed to `ChatResponse(...)`; the reply is whatever the
      intent handling produced, not necessarily a string. */
  datatype Answer = Answer(
    message: Json, conversationId: string, intent: string,
    data: Option<Obj>, actions: Option<seq<string>>)

  const ReplyNotString := "ValidationError: message: Input should be a valid string"

  /** Building the response model: a reply that is not a string fails
      validation. */
  function Validated(a: Answer): (r: Result<ChatResponse, string>)
    ensures r.Success? <==> a.message.JStr?
    ensures r.Success? ==> r.value == ChatResponse(a.message.s, a.conversationId, a.intent, a.data, a.actions)
  {
    if a.message.JStr? then Success(ChatResponse(a.message.s, a.conversationId, a.intent, a.data, a.actions))
    else Failure(ReplyNotString)
  }

  /** What the intent handling decided: the reply text, the response extras,
      and for `create_fund` the new fund row and the conversation's new state. */
  datatype Decision = Decision(
    intent: string, reply: Json, data: Option<Obj>, actions: Option<seq<string>>,
    fund: Option<FundRow>, state: Option<Obj>)

  const CreateFundActions := ["scouting", "analyzing", "building_portfolio"]
  const UnclearFallback := "Could you tell me more about what you'd like to do? I can help you create funds, analyze stocks, or manage your portfolio."
  const OtherFallback := "I'm processing your request..."
  const IntentTask := "Parse this user message"

  /** `intent.get("intent", "unclear").lower()`: needs a dict and a string tag. */
  function IntentTag(intent: Json): (r: Result<string, string>)
    ensures r.Success? ==> intent.JObj?
    ensures intent.JObj? && "intent" !in intent.fields ==> r == Success("unclear")
    ensures intent.JObj? && "intent" in intent.fields && intent.fields["intent"].JStr? ==>
              r == Success(Lower(intent.fields["intent"].s))
  {
    match Get(intent, "intent", JStr("unclear"))
    case Failure(e) => Failure(e)
    case Success(tag) =>
      if !tag.JStr? then Failure("AttributeError: object has no attribute 'lower'")
      else
        LowerNoUpper("unclear");
        Success(Lower(tag.s))
  }

  /** `", ".join(x)`: every element must be a string. */
  function JoinStrings(x: Json): Result<string, string> {
    match Iterate(x)
    case Failure(e) => Failure(e)
    case Success(items) =>
      if forall k :: 0 <= k < |items| ==> items[k].JStr?
      then Success(Join(", ", seq(|items|, k requires 0 <= k < |items| => items[k].s)))
      else Failure("TypeError: sequence item: expected str instance")
  }

  /** `"Focused on …. "` when the themes are truthy, else nothing. */
  function Clause(prefix: string, x: Json): Result<string, string> {
    if !Truthy(x) then Success("")
    else match JoinStrings(x)
      case Failure(e) => Failure(e)
      case Success(j) => Success(prefix + j + ". ")
  }

  const DuplicateSlugError := "IntegrityError: UNIQUE constraint failed: funds.slug"

  /** The `create_fund` branch: name, slug, the new fund (flushed, so a taken
      slug raises), the reply, the state for the next steps. */
  function CreateFund(intent: Obj, funds: seq<FundRow>, newFundId: string): (r: Result<Decision, string>)
    ensures !Lookup(intent, "fund_params", EmptyObj).JObj? ==> r.Failure?
    ensures r.Success? ==> r.value.intent == "create_fund" && r.value.reply.JStr?
    ensures r.Success? ==> r.value.fund.Some? && r.value.fund.value.id == newFundId
  {
    var fundParams := Lookup(intent, "fund_params", EmptyObj);
    if !fundParams.JObj? then Failure("AttributeError: object has no attribute 'get'")
    else
      var params := fundParams.fields;
      var themes := Lookup(params, "themes", JArr([]));
      var stocks := Lookup(params, "specific_stocks", JArr([]));
      match ChatNaming.FundName(params, themes)
      case Failure(e) => Failure(e)
      case Success(nameJ) =>
        if !nameJ.JStr? then Failure("AttributeError: object has no attribute 'lower'")
        else
          var name := nameJ.s;
          var slug := ChatNaming.Slug(name);
          if SlugTaken(funds, slug) then Failure(DuplicateSlugError)
          else match Clause("Focused on ", themes)
            case Failure(e) => Failure(e)
            case Success(focus) =>
              match Clause("Including ", stocks)
              case Failure(e) => Failure(e)
              case Success(including) =>
                var fund := FundRow(newFundId, name, Some(slug), Lookup(params, "mandate", JNull),
                                    Lookup(params, "category", JStr("growth")),
                                    JNull, JNull, JNull, JNull, "building", None);
                Success(Decision(
                  "create_fund",
                  JStr("Creating **" + name + "**! " + focus + including + "Now scouting for opportunities..."),
                  Some(map["fund_id" := JStr(newFundId), "fund_name" := JStr(name)]),
                  Some(CreateFundActions),
                  Some(fund),
                  Some(map["phase" := JStr("scouting"), "fund_params" := fundParams,
                           "fund_id" := JStr(newFundId)])))
  }

  /** The `command_trade` branch: it only asks for confirmation. */
  function CommandTrade(intent: Obj, repr: Json -> string): (r: Result<Decision, string>)
    ensures r.Success? <==> Lookup(intent, "trade_params", EmptyObj).JObj?
    ensures r.Success? ==> r.value.intent == "command_trade" && r.value.reply.JStr?
    ensures r.Success? ==> r.value.data == Some(map["trade" := Lookup(intent, "trade_params", EmptyObj)])
  {
    var trade := Lookup(intent, "trade_params", EmptyObj);
    match Get(trade, "ticker", JStr(""))
    case Failure(e) => Failure(e)
    case Success(ticker) =>
      match Get(trade, "action", JStr(""))
      case Failure(e) => Failure(e)
      case Success(action) =>
        Success(Decision(
          "command_trade",
          JStr("You want to " + PyStr(action, repr) + " " + PyStr(ticker, repr)
               + ". Let me confirm: Should I proceed with this trade?"),
          Some(map["trade" := trade]), Some(["confirm_trade"]), None, None))
  }

  /** The intent dispatch. */
  function Decide(intent: Json, funds: seq<FundRow>, newFundId: string, repr: Json -> string)
    : (r: Result<Decision, string>)
    ensures IntentTag(intent).Failure? ==> r.Failure?
    ensures r.Success? ==> IntentTag(intent).Success? && r.value.intent == IntentTag(intent).value
    ensures r.Success? && r.value.fund.Some? ==> r.value.fund.value.id == newFundId
  {
    match IntentTag(intent)
    case Failure(e) => Failure(e)
    case Success(tag) =>
      var o := intent.fields;
      if tag == "create_fund" then CreateFund(o, funds, newFundId)
      else if tag == "query_performance" then
        Success(Decision(tag, JStr("Let me check the fund's performance for you."), None,
                         Some(["fetch_performance"]), None, None))
      else if tag == "query_risk" then
        Success(Decision(tag, JStr("I'll run a risk analysis on your portfolio."), None,
                         Some(["run_risk_analysis"]), None, None))
      else if tag == "command_trade" then CommandTrade(o, repr)
      else if tag == "unclear" then
        var c := Lookup(o, "clarification_needed", JNull);
        Success(Decision(tag, if Truthy(c) then c else JStr(UnclearFallback), None, None, None, None))
      else
        Success(Decision(tag, Lookup(o, "suggested_response", JStr(OtherFallback)), None, None, None, None))
  }

  /** The conversation a turn works on: the stored one when the request names
      a known id, else a new one in phase "creation" (no fund) or "management". */
  function Opening(conversations: map<string, Record>, req: ChatRequest, newId: string): (r: Record)
    ensures || (r.id == newId && r.messages == Some([]) && r.fundId == req.fundId)
            || (req.conversationId.Some? && req.conversationId.value in conversations
                && r == conversations[req.conversationId.value])
  {
    if req.conversationId.Some? && req.conversationId.value != "" && req.conversationId.value in conversations
    then conversations[req.conversationId.value]
    else Record(newId, req.fundId,
                Some(if req.fundId.None? || req.fundId.value == "" then "creation" else "management"),
                Some([]), None)
  }

  /** The interpreter's context: the message and the history including it. */
  function IntentContext(message: string, history: seq<Json>): Obj {
    map["message" := JStr(message), "history" := JArr(history), "current_fund" := JNull]
  }

  /** The result of a whole turn.  `call` is the reasoning service's answer to
      a prompt. */
  datatype Turn = Turn(response: Answer, conversation: Record, fund: Option<FundRow>)

  /** The conversation after the assistant's reply: linked to the new fund
      and given the new state when one was created. */
  function Saved(current: Record, d: Decision, newFundId: string, replyTime: string): (r: Record)
    ensures r.id == current.id
  {
    var messages := Appended(current.messages, Message("assistant", d.reply, replyTime));
    if d.fund.Some? then current.(fundId := Some(newFundId), state := d.state, messages := Some(messages))
    else current.(messages := Some(messages))
  }

  /** What a turn ends with once the intent is known; `current` is the
      conversation holding the user's message. */
  function Finish(current: Record, intent: Json, funds: seq<FundRow>, newFundId: string, replyTime: string,
                  repr: Json -> string): (r: Result<Turn, string>)
    ensures r.Success? ==> r.value.response.conversationId == r.value.conversation.id == current.id
    ensures r.Success? && r.value.fund.Some? ==> r.value.fund.value.id == newFundId
  {
    match Decide(intent, funds, newFundId, repr)
    case Failure(e) => Failure(e)
    case Success(d) =>
      Success(Turn(Answer(d.reply, current.id, d.intent, d.data, d.actions),
                   Saved(current, d, newFundId, replyTime), d.fund))
  }

  /** The interpreter's intent for the conversation holding the user's message. */
  function Interpretation(current: Record, message: string, call: string -> Result<BaseAgent.Reply, string>,
                          loads: string -> Option<Json>, repr: Json -> string): Result<Json, string>
  {
    match IntentInterpreter.PromptText(IntentTask, IntentContext(message, current.messages.GetOr([])), repr)
    case Failure(e) => Failure(e)
    case Success(prompt) => BaseAgent.Run(IntentInterpreter.NeedsSearch, call(prompt), loads)
  }

  /** The conversation once the user's message is added. */
  function WithUserMessage(conversations: map<string, Record>, req: ChatRequest, newConversationId: string,
                           userTime: string): (r: Record)
    ensures r.id == Opening(conversations, req, newConversationId).id
  {
    var row := Opening(conversations, req, newConversationId);
    row.(messages := Some(Appended(row.messages, Message("user", JStr(req.message), userTime))))
  }

  /** The result of a whole turn. */
  function ChatTurn(conversations: map<string, Record>, funds: seq<FundRow>, req: ChatRequest,
                    newConversationId: string, newFundId: string, userTime: string, replyTime: string,
                    call: string -> Result<BaseAgent.Reply, string>,
                    loads: string -> Option<Json>, repr: Json -> string): (r: Result<Turn, string>)
    ensures r.Success? ==> r.value.response.conversationId == r.value.conversation.id
                           == Opening(conversations, req, newConversationId).id
    ensures r.Success? && r.value.fund.Some? ==> r.value.fund.value.id == newFundId
  {
    var current := WithUserMessage(conversations, req, newConversationId, userTime);
    match Interpretation(current, req.message, call, loads, repr)
    case Failure(e) => Failure(e)
    case Success(intent) => Finish(current, intent, funds, newFundId, replyTime, repr)
  }

  /** The interpreter's step of `chat`: prompt from the history, think, parse. */
  method Interpret(conversation: Conversation, message: string, call: string -> Result<BaseAgent.Reply, string>,
                   loads: string -> Option<Json>, repr: Json -> string) returns (r: Result<Json, string>)
    ensures r == Interpretation(conversation.Row(), message, call, loads, repr)
  {
    var history := conversation.messages.GetOr([]);
    var prompt := IntentInterpreter.BuildPrompt(IntentTask, IntentContext(message, history), repr);
    if prompt.Failure? {
      return Failure(prompt.error);
    }
    r := BaseAgent.Run(IntentInterpreter.NeedsSearch, call(prompt.value), loads);
  }

  /** The intent handling of `chat` and the assistant's reply. */
  method Respond(conversation: Conversation, intent: Json, funds: seq<FundRow>, newFundId: string,
                 replyTime: string, repr: Json -> string) returns (r: Result<Turn, string>)
    modifies conversation
    ensures r == Finish(old(conversation.Row()), intent, funds, newFundId, replyTime, repr)
  {
    var decision := Decide(intent, funds, newFundId, repr);
    if decision.Failure? {
      return Failure(decision.error);
    }
    var d := decision.value;
    if d.fund.Some? {
      conversation.fundId := Some(newFundId);
      conversation.state := d.state;
    }
    conversation.AddMessage("assistant", d.reply, replyTime);
    r := Success(Turn(Answer(d.reply, conversation.id, d.intent, d.data, d.actions),
                      conversation.Row(), d.fund));
  }

  /** The body of `chat` inside the session: everything up to the commit,
      on a conversation object of its own. */
  method Converse(conversations: map<string, Record>, funds: seq<FundRow>, req: ChatRequest,
                  newConversationId: string, newFundId: string, userTime: string, replyTime: string,
                  call: string -> Result<BaseAgent.Reply, string>,
                  loads: string -> Option<Json>, repr: Json -> string)
    returns (r: Result<Turn, string>)
    ensures r == ChatTurn(conversations, funds, req, newConversationId, newFundId, userTime, replyTime,
                          call, loads, repr)
  {
    var conversation := new Conversation(Opening(conversations, req, newConversationId));
    conversation.AddMessage("user", JStr(req.message), userTime);
    assert conversation.Row() == WithUserMessage(conversations, req, newConversationId, userTime);
    var intent := Interpret(conversation, req.message, call, loads, repr);
    if intent.Failure? {
      return Failure(intent.error);
    }
    r := Respond(conversation, intent.value, funds, newFundId, replyTime, repr);
  }

  /** The tables after `chat` with outcome `turn`: a completed turn stores
      its conversation and its new fund, if any, and is answered once its
      reply validates (a 500 otherwise, the commit having happened); a failed
      turn changes nothing and answers 500 with the exception text. */
  predicate Committed(turn: Result<Turn, string>, r: Result<ChatResponse, HttpError>,
                      conversations: map<string, Record>, funds: seq<FundRow>,
                      conversations': map<string, Record>, funds': seq<FundRow>)
  {
    match turn
    case Failure(e) =>
      r == Failure(HttpError(500, e)) && conversations' == conversations && funds' == funds
    case Success(t) =>
      && r == (match Validated(t.response)
               case Success(c) => Success(c)
               case Failure(e) => Failure(HttpError(500, e)))
      && conversations' == conversations[t.conversation.id := t.conversation]
      && funds' == funds + (if t.fund.Some? then [t.fund.value] else [])
  }

  /** `session.commit()` of a completed turn. */
  method Commit(db: Database, t: Turn)
    requires t.fund.Some? ==> forall f :: f in db.funds ==> f.id != t.fund.value.id
    modifies db
    ensures UniqueIds(old(db.funds)) ==> UniqueIds(db.funds)
    ensures db.conversations == old(db.conversations)[t.conversation.id := t.conversation]
    ensures db.funds == old(db.funds) + (if t.fund.Some? then [t.fund.value] else [])
    ensures db.positions == old(db.positions) && db.theses == old(db.theses) && db.alerts == old(db.alerts)
    ensures db.riskReports == old(db.riskReports)
  {
    db.conversations := db.conversations[t.conversation.id := t.conversation];
    if t.fund.Some? {
      db.funds := db.funds + [t.fund.value];
    }
  }

  /** `chat`. */
  method Chat(db: Database, req: ChatRequest, newConversationId: string, newFundId: string,
              userTime: string, replyTime: string, call: string -> Result<BaseAgent.Reply, string>,
              loads: string -> Option<Json>, repr: Json -> string)
    returns (r: Result<ChatResponse, HttpError>)
    requires forall f :: f in db.funds ==> f.id != newFundId
    modifies db
    ensures UniqueIds(old(db.funds)) ==> UniqueIds(db.funds)
    ensures Committed(ChatTurn(old(db.conversations), old(db.funds), req, newConversationId, newFundId,
                               userTime, replyTime, call, loads, repr),
                      r, old(db.conversations), old(db.funds), db.conversations, db.funds)
    ensures db.positions == old(db.positions) && db.theses == old(db.theses) && db.alerts == old(db.alerts)
    ensures db.riskReports == old(db.riskReports)
  {
    var turn := Converse(db.conversations, db.funds, req, newConversationId, newFundId, userTime, replyTime,
                         call, loads, repr);
    if turn.Failure? {
      return Failure(HttpError(500, turn.error));
    }
    Commit(db, turn.value);
    var response := Validated(turn.value.response);
    if response.Failure? {
      return Failure(HttpError(500, response.error));
    }
    r := Success(response.value);
  }

  // ---------------------------------------------------------------------
  // Properties

  /** A new conversation starts in "creation" without a fund and in
      "management" with one, with an empty message list. */
  lemma NewConversationPhase(conversations: map<string, Record>, req: ChatRequest, newId: string)
    requires req.conversationId.None? || req.conversationId.value !in conversations
    ensures Opening(conversations, req, newId).id == newId
    ensures Opening(conversations, req, newId).messages == Some([])
    ensures Opening(conversations, req, newId).phase
            == Some(if req.fundId.None? || req.fundId.value == "" then "creation" else "management")
    ensures Opening(conversations, req, newId).fundId == req.fundId
  {
  }

  /** The intent tag is lower-cased, and a missing tag reads "unclear", which
      answers with the clarification or the fixed fallback. */
  lemma IntentNormalised(intent: Obj, funds: seq<FundRow>, newFundId: string, repr: Json -> string)
    requires "intent" !in intent
    ensures Decide(JObj(intent), funds, newFundId, repr)
            == Success(Decision("unclear",
                                if Truthy(Lookup(intent, "clarification_needed", JNull))
                                then intent["clarification_needed"] else JStr(UnclearFallback),
                                None, None, None, None))
  {
  }

  /** Upper-case tags are recognised: "QUERY_RISK" runs the risk branch. */
  lemma UpperCaseTag(intent: Obj, funds: seq<FundRow>, newFundId: string, repr: Json -> string)
    requires "intent" in intent && intent["intent"] == JStr("QUERY_RISK")
    ensures Decide(JObj(intent), funds, newFundId, repr).Success?
    ensures Decide(JObj(intent), funds, newFundId, repr).value.actions == Some(["run_risk_analysis"])
  {
    var l := Lower("QUERY_RISK");
    assert l == "query_risk" by {
      assert |l| == 10;
      forall k | 0 <= k < 10 ensures l[k] == "query_risk"[k] {
      }
    }
  }

  /** Finishing a turn appends the assistant's reply and keeps the
      conversation's id and phase. */
  lemma FinishAddsReply(current: Record, intent: Json, funds: seq<FundRow>, newFundId: string,
                        replyTime: string, repr: Json -> string)
    requires Finish(current, intent, funds, newFundId, replyTime, repr).Success?
    ensures var t := Finish(current, intent, funds, newFundId, replyTime, repr).value;
            && t.conversation.messages
               == Some(Appended(current.messages, Message("assistant", t.response.message, replyTime)))
            && t.conversation.id == current.id == t.response.conversationId
            && t.conversation.phase == current.phase
  {
  }

  /** A completed turn stores the earlier messages followed by exactly two new
      ones: the user's, then the assistant's. */
  lemma TwoMessagesPerTurn(conversations: map<string, Record>, funds: seq<FundRow>, req: ChatRequest,
                           newConversationId: string, newFundId: string, userTime: string, replyTime: string,
                           call: string -> Result<BaseAgent.Reply, string>,
                           loads: string -> Option<Json>, repr: Json -> string)
    requires ChatTurn(conversations, funds, req, newConversationId, newFundId, userTime, replyTime,
                      call, loads, repr).Success?
    ensures var t := ChatTurn(conversations, funds, req, newConversationId, newFundId, userTime, replyTime,
                              call, loads, repr).value;
            var before := Opening(conversations, req, newConversationId).messages.GetOr([]);
            && t.conversation.messages
               == Some(before + [Message("user", JStr(req.message), userTime),
                                 Message("assistant", t.response.message, replyTime)])
            && t.conversation.id == t.response.conversationId
            && t.conversation.phase == Opening(conversations, req, newConversationId).phase
  {
    var row := Opening(conversations, req, newConversationId);
    var current := WithUserMessage(conversations, req, newConversationId, userTime);
    var intent := Interpretation(current, req.message, call, loads, repr).value;
    assert ChatTurn(conversations, funds, req, newConversationId, newFundId, userTime, replyTime, call, loads, repr)
           == Finish(current, intent, funds, newFundId, replyTime, repr);
    FinishAddsReply(current, intent, funds, newFundId, replyTime, repr);
    var t := Finish(current, intent, funds, newFundId, replyTime, repr).value;
    var u := Message("user", JStr(req.message), userTime);
    var a := Message("assistant", t.response.message, replyTime);
    assert current.messages == Some(Appended(row.messages, u));
    TwoMessages(row.messages, u, a);
  }

  /** `create_fund` registers a "building" fund named and slugged as derived,
      links the conversation to it and sets the state for scouting. */
  lemma CreateFundEffects(intent: Obj, funds: seq<FundRow>, newFundId: string)
    requires CreateFund(intent, funds, newFundId).Success?
    ensures var d := CreateFund(intent, funds, newFundId).value;
            && d.fund.Some? && d.fund.value.status == "building" && d.fund.value.id == newFundId
            && d.fund.value.slug == Some(ChatNaming.Slug(d.fund.value.name))
            && !SlugTaken(funds, ChatNaming.Slug(d.fund.value.name))
            && d.actions == Some(["scouting", "analyzing", "building_portfolio"])
            && d.state == Some(map["phase" := JStr("scouting"),
                                   "fund_params" := Lookup(intent, "fund_params", EmptyObj),
                                   "fund_id" := JStr(newFundId)])
            && d.data == Some(map["fund_id" := JStr(newFundId), "fund_name" := JStr(d.fund.value.name)])
  {
  }

  /** A list of strings as JSON. */
  function Strs(names: seq<string>): (r: seq<Json>)
    ensures |r| == |names| && forall k :: 0 <= k < |r| ==> r[k] == JStr(names[k])
  {
    seq(|names|, k requires 0 <= k < |names| => JStr(names[k]))
  }

  /** A non-empty list of strings is listed after the prefix, joined by ", ". */
  lemma ClauseOfStrings(prefix: string, names: seq<string>)
    requires names != []
    ensures Clause(prefix, JArr(Strs(names))) == Success(prefix + Join(", ", names) + ". ")
  {
    var items := Strs(names);
    assert seq(|items|, k requires 0 <= k < |items| => items[k].s) == names;
  }

  /** A trade command only asks for confirmation: no fund, no state change. */
  lemma CommandTradeOnlyConfirms(intent: Obj, repr: Json -> string)
    requires CommandTrade(intent, repr).Success?
    ensures CommandTrade(intent, repr).value.actions == Some(["confirm_trade"])
    ensures CommandTrade(intent, repr).value.fund.None? && CommandTrade(intent, repr).value.state.None?
  {
  }

  /** Every intent but `create_fund` leaves the conversation's fund and state
      alone and registers nothing. */
  lemma OnlyCreateFundChangesState(intent: Json, funds: seq<FundRow>, newFundId: string, repr: Json -> string)
    requires Decide(intent, funds, newFundId, repr).Success?
    requires IntentTag(intent).value != "create_fund"
    ensures Decide(intent, funds, newFundId, repr).value.fund.None?
    ensures Decide(intent, funds, newFundId, repr).value.state.None?
  {
  }

  /** The unclear branch answers with the clarification when it is truthy, else the fallback. */
  lemma UnclearReply(intent: Obj, funds: seq<FundRow>, newFundId: string, repr: Json -> string)
    requires "intent" in intent && intent["intent"] == JStr("unclear")
    ensures Decide(JObj(intent), funds, newFundId, repr).Success?
    ensures var c := Lookup(intent, "clarification_needed", JNull);
            Decide(JObj(intent), funds, newFundId, repr).value.reply == (if Truthy(c) then c else JStr(UnclearFallback))
  {
    var l := Lower("unclear");
    assert l == "unclear" by {
      assert |l| == 7;
      forall k | 0 <= k < 7 ensures l[k] == "unclear"[k] {
      }
    }
  }

  /** Only the `unclear` and the catch-all branches can produce a reply that
      is not a string: they echo a value of the interpreter's answer. */
  lemma EchoedRepliesOnly(intent: Json, funds: seq<FundRow>, newFundId: string, repr: Json -> string)
    requires Decide(intent, funds, newFundId, repr).Success?
    ensures var d := Decide(intent, funds, newFundId, repr).value;
            !d.reply.JStr? ==> d.intent !in ["create_fund", "query_performance", "query_risk", "command_trade"]
  {
  }

  /** A truthy clarification that is a dict is the reply as it stands. */
  lemma DictClarification(intent: Obj, c: Obj, funds: seq<FundRow>, newFundId: string, repr: Json -> string)
    requires "intent" !in intent && "clarification_needed" in intent && intent["clarification_needed"] == JObj(c)
    requires c != map[]
    ensures Decide(JObj(intent), funds, newFundId, repr).Success?
    ensures !Decide(JObj(intent), funds, newFundId, repr).value.reply.JStr?
  {
    IntentNormalised(intent, funds, newFundId, repr);
  }

  /** A turn whose reply is not a string is still stored with both messages,
      but the request is answered 500: the response model rejects the reply
      after the commit. */
  lemma NonStringReplyStoredYet500(turn: Result<Turn, string>, r: Result<ChatResponse, HttpError>,
                                   conversations: map<string, Record>, funds: seq<FundRow>,
                                   conversations': map<string, Record>, funds': seq<FundRow>)
    requires turn.Success? && !turn.value.response.message.JStr?
    requires Committed(turn, r, conversations, funds, conversations', funds')
    ensures r == Failure(HttpError(500, ReplyNotString))
    ensures conversations' == conversations[turn.value.conversation.id := turn.value.conversation]
    ensures turn.value.conversation.id in conversations'
  {
  }
}
