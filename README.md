# AI-Asset-Manager backend core, modelled in Dafny

AI-Asset-Manager is an investment assistant. It builds thematic funds out of
language-model "agents": scouts that discover stocks, researchers that write
theses, risk and rebalancing agents. It also has a chat that walks a user
from a fund idea to a proposed portfolio, and scheduled jobs that watch the
funds. The agents' answers are opaque. The behaviour this project models is the
deterministic glue around them:

- **Agent-output recovery.** `BaseAgent` chooses which part of a reply goes to
  the JSON decoder: a `json` fence, a plain fence or the whole text. Its
  fallbacks are the brace span and then the fixed error record. On the search
  path it attaches `_sources`.
- **Pipelines.** `ScoutPipeline` covers scout selection, `_source` tagging,
  first-occurrence dedup with `_multi_scout`, and the discovery stats.
  `AnalysisPipeline` covers the four research slots, the `{}` / `{"_error"}`
  views of a failed branch, and source collection. `RiskPipeline` covers slot
  pairing, the worst-decline classifier, flags and the deduplicated
  recommendations.
- **Thesis.** `ThesisWriter` filters out underscore keys and fills prompt
  defaults. `ThesisModel` maps an analysis result onto a thesis row, including
  price parsing and the truthiness rules of `to_dict`.
- **Chat.** `ChatRoute` covers intent dispatch and the state payload.
  `ChatNaming` covers the fund name and slug. `ChatActions` covers the phase
  progression `scouting → discovered → analyzed → complete` of
  `execute_action`. `Conversations` models the conversation record's
  `add_message` and `to_dict`. `IntentInterpreter` models the prompt's
  ten-message history window.
- **Routes.** `FundsRoutes` covers fund creation, the position upsert keyed by
  fund and upper-cased ticker, position removal and fund activation.
  `AnalyzeRoutes` covers single analysis and the sequential batch with its
  counts.
- **Scheduled jobs.** `DailyJobs` covers the position alert rule and the price
  extraction with its leftmost regex match. `WeeklyJobs` covers risk reports,
  the rebalancing check and the performance update, with their skip and catch
  counters.

Values are a `Json` datatype (`JsonValues`): null, bool, number as `real`,
string, array, and object as a map. Python's dynamic behaviour is made
explicit:

- `.get` on a non-dict fails;
- `True == 1` when hashing;
- `str()` falls back on a `repr` parameter;
- iteration over strings, lists and dicts follows Python's rules.

The outside world enters as inputs:
- Agent and pipeline calls, the LLM replies, `json.loads`, `json.dumps` and `repr` are function-typed parameters.
- The outcomes of `asyncio.gather` are an ordered sequence of results.

The database is the class `Store.Database`, with one sequence or map per table.
Table-changing operations are methods on it. A request that fails before its
commit leaves the tables unchanged, as the session's rollback does. A chat turn
whose reply is not a string is the exception: it is committed first and only
then answered with a 500 (`ChatRoute.NonStringReplyStoredYet500`).

## Model

| member | source | states |
|---|---|---|
| BaseAgent.BraceSpan | backend/agents/base_agent.py:135-136 | a span the greedy `\{[\s\S]*\}` search finds starts with `{` and ends with `}` |
| BaseAgent.BraceSpanIs | backend/agents/base_agent.py:135-136 | the span runs from the first `{` of the text to its last `}` |
| BaseAgent.Settled | backend/orchestrator/pipelines/analysis_pipeline.py:68 | a research branch gathered with `return_exceptions` is its object on success and `{"_error": message}` on failure |
| BaseAgent.JsonFenceCandidate | backend/agents/base_agent.py:116-130 | with a "```json" fence closed later, the text handed to `json.loads` is the stripped fence body |
| BaseAgent.PlainFenceCandidate | backend/agents/base_agent.py:123-130 | without "```json" but with a closed plain fence, the candidate is the stripped body of the first fence pair |
| BaseAgent.UnclosedJsonFence | backend/agents/base_agent.py:119-130 | an opening "```json" that is never closed leaves the whole stripped text as the candidate |
| BaseAgent.UnfencedCandidate | backend/agents/base_agent.py:116-130 | text without any fence is parsed as itself, stripped |
| BaseAgent.FallbackSpan | backend/agents/base_agent.py:132-146 | when the candidate does not parse, the first-`{`-to-last-`}` span is parsed, and failing that the error record is returned |
| BaseAgent.TotalFailure | backend/agents/base_agent.py:132-146 | when neither the candidate nor the brace span parses, the result is the error record carrying the raw text and `_parse_error: true` |
| BaseAgent.ErrorRecordFields | backend/agents/base_agent.py:142-146 | the error record is an object with `_raw` = the text and `_parse_error` = true |
| BaseAgent.ParseJsonSources | backend/agents/base_agent.py:109-146 | every parse result comes from the candidate, from the brace span, or is the error record |
| BaseAgent.RoundTrip | backend/agents/base_agent.py:109-130 | unfenced, unpadded JSON text that `json.loads` accepts parses to its own value |
| BaseAgent.FencedRoundTrip | backend/agents/base_agent.py:118-130 | the same JSON wrapped in a "```json" fence parses to the same value |
| BaseAgent.CandidateOfWrapped | backend/agents/base_agent.py:118-122 | the candidate taken from a "```json" fence around a fence-free text is that text |
| BaseAgent.SearchResultIsObject | backend/agents/base_agent.py:77-85 | a search-path run succeeds only with an object reply, and returns the parsed fields plus `_sources` = the reply's sources |
| BaseAgent.ThinkPathUnchanged | backend/agents/base_agent.py:77-93 | a think-path run returns the parse result unchanged; a search-path run whose parse is not an object fails; a failed model call fails on both paths |
| BaseAgent.Candidate | backend/agents/base_agent.py:116-130 | the text handed to `json.loads` is never longer than the reply and has no leading or trailing whitespace |
| BaseAgent.Run | backend/agents/base_agent.py:64-93 | a run succeeds exactly when the model call succeeds and, on the search path, the parse result is an object; on the search path that object carries `_sources` = the reply's sources |
| BaseAgent.NoFenceNoJsonFence | backend/agents/base_agent.py:118-123 | a text without a plain fence has no "```json" fence either, so the fence tests can be taken in the code's order |
| AnalysisPipeline.SynthesisContext | backend/orchestrator/pipelines/analysis_pipeline.py:86-92 | the writer's context holds exactly the ticker and the four research slots, each the branch's object or `{}` for a failed branch |
| AnalysisPipeline.ResearchRecord | backend/orchestrator/pipelines/analysis_pipeline.py:106-111 | the stored research holds exactly the four slots, each the branch's object or `{"_error": message}` |
| AnalysisPipeline.CollectSources | backend/orchestrator/pipelines/analysis_pipeline.py:138-144 | the loop over the analyses computes the specification `Collected` (sources extended in order, a non-iterable `_sources` aborting) |
| AnalysisPipeline.CollectedFailureSticks | backend/orchestrator/pipelines/analysis_pipeline.py:141-143 | once extending the sources has failed, later analyses do not change the outcome |
| AnalysisPipeline.CollectedIsConcatenation | backend/orchestrator/pipelines/analysis_pipeline.py:138-144 | when every `_sources` present is a list, the result is the concatenation of those lists in analysis order |
| AnalysisPipeline.CollectedAppend | backend/orchestrator/pipelines/analysis_pipeline.py:141-143 | collecting two runs of analyses back to back gives the two source lists concatenated |
| AnalysisPipeline.CollectedPrefix | backend/orchestrator/pipelines/analysis_pipeline.py:141-143 | if collecting all analyses succeeds, collecting any prefix succeeds |
| AnalysisPipeline.FailureViews | backend/orchestrator/pipelines/analysis_pipeline.py:86-111 | a failed branch is `{}` for the writer and `{"_error": message}` in the research record; a successful one is its object in both |
| AnalysisPipeline.ContextAlwaysFormats | backend/orchestrator/pipelines/analysis_pipeline.py:86-98 | the context the pipeline builds always satisfies the thesis writer's prompt builder |
| AnalysisPipeline.WriterRunsDespiteFailures | backend/orchestrator/pipelines/analysis_pipeline.py:103-113 | with an object thesis and collectable sources, the result is exactly ticker, thesis, research record and sources, whatever branches failed |
| AnalysisPipeline.AnalysisFailures | backend/orchestrator/pipelines/analysis_pipeline.py:98-122 | the analysis fails exactly when the writer fails, the sources cannot be collected, or the thesis is not an object |
| AnalysisPipeline.WriterTakesThinkPath | backend/orchestrator/pipelines/analysis_pipeline.py:94-98 | the writer's prompt always builds and its reply is parsed as on the think path, without `_sources` |
| AnalysisPipeline.TaskText | backend/orchestrator/pipelines/analysis_pipeline.py:94-96 | the task names the ticker, and appends "Additional context: ..." exactly when a non-empty extra context is given |
| AnalysisPipeline.Combine | backend/orchestrator/pipelines/analysis_pipeline.py:103-122 | a combined result is an object with exactly the keys ticker, thesis, research and sources: the ticker as given, an object thesis, the research record of the branches, and the collected sources |
| AnalysisPipeline.Analyze | backend/orchestrator/pipelines/analysis_pipeline.py:43-122 | a successful analysis has exactly those four keys with those values, whatever research branches failed |
| AnalyzeRoutes.CaseField | backend/api/routes/analyze.py:69-70 | a bull/bear case is the nested `summary` (or null) when the case is a dict, the value itself otherwise, null when missing |
| AnalyzeRoutes.Analysis | backend/api/routes/analyze.py:56-90 | every failure is a 500 carrying the message (a failed pipeline passes its message through); the response's ticker is the upper-cased request ticker |
| AnalyzeRoutes.AnalyzeTicker | backend/api/routes/analyze.py:56-90 | the endpoint returns the response of `Analysis`, and the thesis table grows by the saved row and nothing else changes |
| AnalyzeRoutes.BatchEntry | backend/api/routes/analyze.py:128-144 | each entry carries the upper-cased ticker and status "success" or "error"; a failed analysis gives the error entry with its message |
| AnalyzeRoutes.Count | backend/api/routes/analyze.py:147-148 | a status count never exceeds the number of results |
| AnalyzeRoutes.AnalyzeBatch | backend/api/routes/analyze.py:125-150 | the sequential loop builds the response of the specification `Batch` over the tickers in order |
| AnalyzeRoutes.BatchEntries | backend/api/routes/analyze.py:127-144 | one entry per ticker, the k-th computed from the k-th ticker's analysis alone |
| AnalyzeRoutes.BatchConcat | backend/api/routes/analyze.py:127-144 | analysing two ticker lists back to back gives the two entry lists concatenated |
| AnalyzeRoutes.CountConcat | backend/api/routes/analyze.py:147-148 | counting a status over two lists adds the counts |
| AnalyzeRoutes.CountsCover | backend/api/routes/analyze.py:147-148 | when every entry is either a success or an error, the two counts add up to the number of entries |
| AnalyzeRoutes.BatchCounts | backend/api/routes/analyze.py:146-150 | `analyzed` + `failed` equals the number of tickers, and there is one result per ticker |
| AnalyzeRoutes.SuccessEntry | backend/api/routes/analyze.py:129-138 | an entry is a success exactly when the analysis, its thesis and its score breakdown are dicts, and then it carries recommendation, conviction and the overall score |
| AnalyzeRoutes.FailedEntry | backend/api/routes/analyze.py:139-144 | a failed analysis gives status "error" with the exception's message |
| AnalyzeRoutes.SavedOnlyWhenRequested | backend/api/routes/analyze.py:76-85 | a thesis row is saved exactly when `save_thesis` is set; it is `Thesis.from_analysis` of the result and its id is returned as `thesis_id`, which is null otherwise |
| AnalyzeRoutes.NoSaveKeepsTheses | backend/api/routes/analyze.py:76 | without `save_thesis` nothing is saved |
| AnalyzeRoutes.ResponseCaseMatchesThesis | backend/api/routes/analyze.py:69-70 | the response's case text agrees with the stored thesis's case text for dict, string and missing cases, and differs for an explicit null (`None` vs the string "None") |
| ChatRoute.IntentTag | backend/api/routes/chat.py:86 | the intent tag is the lower-cased `intent` string, "unclear" when the key is missing, and reading it fails when the interpreter's answer is not a dict |
| ChatRoute.Interpret | backend/api/routes/chat.py:76-84 | the interpreter is run on the message with the conversation's history and no current fund, as the specification `Interpretation` says |
| ChatRoute.Respond | backend/api/routes/chat.py:86-165 | deciding on the intent and adding the assistant's reply updates the conversation as the specification `Finish` says |
| ChatRoute.Converse | backend/api/routes/chat.py:54-165 | a whole turn (load or open, add the user message, interpret, decide, reply) equals the specification `ChatTurn` |
| ChatRoute.Commit | backend/api/routes/chat.py:111-157 | committing stores the conversation row and appends the new fund if one was created; the other tables are unchanged; with a fresh fund id, unique fund ids stay unique |
| ChatRoute.Chat | backend/api/routes/chat.py:43-168 | a failed turn is a 500 carrying its message and leaves every table unchanged; a completed turn is committed (the conversation stored, a created fund appended) and then answered, or answered 500 when its reply is not a string; with a fresh fund id, unique fund ids stay unique |
| ChatRoute.NewConversationPhase | backend/api/routes/chat.py:57-70 | a missing or unknown conversation id opens a new conversation with no messages, the request's fund, and phase "creation" without a fund id, "management" with one |
| ChatRoute.IntentNormalised | backend/api/routes/chat.py:86-150 | an answer without `intent` is handled as "unclear": the clarification if truthy, else the fixed fallback reply |
| ChatRoute.UpperCaseTag | backend/api/routes/chat.py:86-139 | an upper-case "QUERY_RISK" tag is normalised and triggers the risk-analysis action |
| ChatRoute.FinishAddsReply | backend/api/routes/chat.py:155-165 | a finished turn appends exactly the assistant's reply, keeps the conversation's id and phase, and answers with that id |
| ChatRoute.TwoMessagesPerTurn | backend/api/routes/chat.py:72-156 | a successful turn adds exactly the user message then the assistant reply to the conversation |
| ChatRoute.CreateFundEffects | backend/api/routes/chat.py:93-131 | `create_fund` registers a "building" fund with the new id, the derived name and its slug (unused among existing funds), sets the scouting state and the three actions, and returns the fund's id and name |
| ChatRoute.Strs | backend/api/routes/chat.py:118-121 | a list of names as JSON strings, element by element |
| ChatRoute.ClauseOfStrings | backend/api/routes/chat.py:118-121 | a non-empty list of themes or stocks adds the prefix and the names joined by ", " |
| ChatRoute.CommandTradeOnlyConfirms | backend/api/routes/chat.py:141-147 | a trade command only asks for confirmation: it creates no fund and stores no state |
| ChatRoute.OnlyCreateFundChangesState | backend/api/routes/chat.py:93-153 | every intent other than `create_fund` creates no fund and stores no state |
| ChatRoute.UnclearReply | backend/api/routes/chat.py:149-150 | an "unclear" intent answers with the clarification when it is truthy and with the fixed fallback otherwise |
| ChatRoute.Validated | backend/api/routes/chat.py:34-40 | building the `ChatResponse` succeeds exactly when the reply is a string (`message: str`), and then carries the turn's reply, id, intent, data and actions unchanged |
| ChatRoute.CreateFund | backend/api/routes/chat.py:93-131 | a `fund_params` that is not a dict makes `create_fund` fail; a created fund has intent "create_fund", a string reply, and a new fund row with the new id |
| ChatRoute.CommandTrade | backend/api/routes/chat.py:141-147 | a trade command succeeds exactly when `trade_params` is a dict, answers with a string and carries `{"trade": trade_params}` as data |
| ChatRoute.Decide | backend/api/routes/chat.py:86-153 | the decision fails when the intent tag cannot be read, and otherwise carries the normalised tag as its intent; a fund it creates carries the id it was given |
| ChatRoute.Opening | backend/api/routes/chat.py:57-70 | the turn works on either a fresh conversation (the new id, no messages, the request's fund) or the stored conversation the request names |
| ChatRoute.Saved | backend/api/routes/chat.py:115-129 | storing the decision's fund link and state keeps the conversation's id |
| ChatRoute.Finish | backend/api/routes/chat.py:155-165 | the response names the conversation the turn stored, which is the one it started from; a fund it creates carries the id it was given |
| ChatRoute.WithUserMessage | backend/api/routes/chat.py:57-73 | adding the user message keeps the id of the opened conversation |
| ChatRoute.ChatTurn | backend/api/routes/chat.py:54-165 | a successful turn answers with the id of the conversation it opened or loaded, and stores that same conversation; a fund it creates carries the id it was given |
| ChatRoute.EchoedRepliesOnly | backend/api/routes/chat.py:87-153 | a reply that is not a string can only come from an intent echoed from the interpreter (unclear or unknown), never from the four fixed-text intents |
| ChatRoute.DictClarification | backend/api/routes/chat.py:149-150 | a truthy clarification that is a dict is taken as the reply, which then is not a string |
| ChatRoute.NonStringReplyStoredYet500 | backend/api/routes/chat.py:155-168 | a non-string reply is committed with the conversation and only then fails building the response, so the client gets a 500 for a turn that was stored |
| ChatNaming.Titles | backend/api/routes/chat.py:98 | title-casing the themes succeeds exactly when all are strings, and gives each theme's `str.title()` |
| ChatNaming.FundName | backend/api/routes/chat.py:98 | the name is `fund_params["name"]` when present, else the derived name; it fails exactly when deriving fails (the default is evaluated eagerly) |
| ChatNaming.DropLeading | backend/api/routes/chat.py:102 | dropping leading hyphens leaves a suffix that does not start with a hyphen |
| ChatNaming.DropTrailing | backend/api/routes/chat.py:102 | dropping trailing hyphens leaves a prefix that does not end with a hyphen |
| ChatNaming.CollapseShape | backend/api/routes/chat.py:102 | replacing runs of characters outside `[a-z0-9]` by one hyphen leaves only slug characters and no double hyphen |
| ChatNaming.StripShape | backend/api/routes/chat.py:102 | `strip('-')` keeps those properties and removes edge hyphens |
| ChatNaming.Slug | backend/api/routes/chat.py:102 | the slug uses only `a-z`, `0-9` and `-`, has no double hyphen and no hyphen at either end (see SlugShape, SlugIdempotent) |
| ChatNaming.DerivedName | backend/api/routes/chat.py:98 | falsy themes name the fund "New Growth Fund"; truthy themes that are neither a list nor a string fail; a list succeeds exactly when its first two items are strings; a name derived from truthy themes ends in " Fund" (see NameRules, NameNeedsStringThemes) |
| ChatNaming.SlugShape | backend/api/routes/chat.py:102 | every slug uses only `a-z`, `0-9` and `-`, has no double hyphen and no edge hyphen |
| ChatNaming.CollapseFixed | backend/api/routes/chat.py:102 | the substitution leaves a string that already has the slug shape unchanged |
| ChatNaming.StripFixed | backend/api/routes/chat.py:102 | `strip('-')` leaves a string without edge hyphens unchanged |
| ChatNaming.SlugIdempotent | backend/api/routes/chat.py:102 | slugging a slug gives the same slug |
| ChatNaming.TitleLowerWord | backend/api/routes/chat.py:98 | `title()` of a lower-case word upper-cases its first letter only |
| ChatNaming.TitleExamples | backend/api/routes/chat.py:98 | "fintech" and "ai" title-case to "Fintech" and "Ai" |
| ChatNaming.NameExample | backend/api/routes/chat.py:98 | without a name, themes ["fintech", "ai"] name the fund "FintechAi Fund" |
| ChatNaming.NameRules | backend/api/routes/chat.py:98 | with falsy themes the name is the given one, or "New Growth Fund" |
| ChatNaming.NameNeedsStringThemes | backend/api/routes/chat.py:98 | a non-string theme makes the fund creation fail even when a name is given |
| ChatNaming.CollapseWord | backend/api/routes/chat.py:102 | a run of slug characters passes through the substitution unchanged |
| ChatNaming.CollapseSeparator | backend/api/routes/chat.py:102 | a non-slug character starts a hyphen, and further ones in the same run add nothing |
| ChatNaming.SlugExample | backend/api/routes/chat.py:102 | "FintechAi Fund" slugs to "fintechai-fund" |
| ChatNaming.CollapseTwoWords | backend/api/routes/chat.py:102 | two words separated by one non-slug character become the words joined by one hyphen |
| ChatNaming.SlugCollapsesRuns | backend/api/routes/chat.py:102 | " A & B " slugs to "a-b": runs become one hyphen and edge hyphens go |
| ChatActions.TickersOf | backend/api/routes/chat.py:211 | reading `s.get("ticker")` succeeds exactly when every stock is a dict, and gives each stock's ticker (or null) in order |
| ChatActions.AnalyzeEach | backend/api/routes/chat.py:229-241 | the loop over the tickers builds the specification `Entries`: one summary per analysis that did not raise, in order |
| ChatActions.ProposeEach | backend/api/routes/chat.py:271-287 | the loop over the allocations builds the specification `Proposed` position rows, failing as the first failing allocation does |
| ChatActions.FundOf | backend/api/routes/chat.py:290-293 | the fund looked up by `fund_id` is one with that id, and it is found whenever such a fund exists |
| ChatActions.Placement | backend/api/routes/chat.py:272-294 | placing a portfolio needs a truthy fund id and portfolio; it proposes the positions and activates the fund if found |
| ChatActions.TickersOfRows | backend/api/routes/chat.py:287 | the created tickers are the proposed rows' tickers, in order |
| ChatActions.Built | backend/api/routes/chat.py:270-308 | a fund to activate is always an existing row |
| ChatActions.Building | backend/api/routes/chat.py:255-308 | after running the portfolio manager, a fund to activate is always an existing row |
| ChatActions.Step | backend/api/routes/chat.py:195-311 | each action's outcome activates at most an existing fund |
| ChatActions.Execute | backend/api/routes/chat.py:185-311 | the same for the whole request, a missing conversation included |
| ChatActions.HttpErrorAsWritten | backend/api/routes/chat.py:313-314 | as written, every error, the 404 included, leaves the endpoint as a 500 |
| ChatActions.HttpErrorOf | backend/api/routes/chat.py:192-193 | as intended, the answer is 404 exactly for the missing conversation |
| ChatActions.StoredStateAsWritten | backend/api/routes/chat.py:195-215 | as written (see ## Findings): a non-empty loaded state is stored unchanged; otherwise the step's new state is stored when it has one; the stored state is always one of the two (see ScoutingLostAsWritten) |
| ChatActions.StoredState | backend/api/routes/chat.py:215 | as intended, the stored state is the step's new state when it has one, and the loaded state otherwise |
| ChatActions.Activated | backend/api/routes/chat.py:293-294 | activation sets the found fund's status to "active" and leaves every other fund row as it was |
| ChatActions.Build | backend/api/routes/chat.py:255-308 | the building step computes the specification `Building` |
| ChatActions.Act | backend/api/routes/chat.py:195-311 | dispatching on the action computes the specification `Step` |
| ChatActions.Apply | backend/api/routes/chat.py:215-300 | as intended (see ## Findings): committing stores the conversation's new state, appends the proposed positions and activates the fund; the other tables are unchanged, and unique fund ids stay unique |
| ChatActions.ExecuteAction | backend/api/routes/chat.py:171-314 | as intended (see ## Findings): a successful action is committed and answered; a failure is answered with its HTTP error and changes nothing |
| ChatActions.ProposedStep | backend/api/routes/chat.py:275-287 | one more allocation with a truthy ticker adds exactly its row; one without adds nothing |
| ChatActions.ProposedFailurePropagates | backend/api/routes/chat.py:275-287 | an allocation that raises fails the whole build with its error |
| ChatActions.ProposedFailureStays | backend/api/routes/chat.py:275-287 | once a prefix of the allocations fails, the whole build fails the same way |
| ChatActions.EntriesBound | backend/api/routes/chat.py:229-241 | there are never more summaries than tickers |
| ChatActions.EntriesConcat | backend/api/routes/chat.py:229-241 | analysing two ticker lists back to back concatenates their summaries |
| ChatActions.EntriesAllSucceed | backend/api/routes/chat.py:229-241 | when no analysis raises, there is one summary per ticker, the k-th from the k-th ticker |
| ChatActions.AnalyzingAtMostFive | backend/api/routes/chat.py:225-253 | at most five stocks are analysed; the stored theses are the returned ones and the message states their count |
| ChatActions.ScoutingAtMostTen | backend/api/routes/chat.py:198-223 | at most ten hot tickers are kept; the stored list is the returned one and the message states its count |
| ChatActions.HotTickersOfList | backend/api/routes/chat.py:210-211 | with a list of dict hot stocks, the tickers are the first ten stocks' tickers |
| ChatActions.PhaseProgression | backend/api/routes/chat.py:214-311 | scouting, analysing and building set the phase to "discovered", "analyzed" and "complete"; any other action stores nothing; other keys of the state are kept |
| ChatActions.UnknownActionChangesNothing | backend/api/routes/chat.py:310-311 | any other action answers "unknown_action" with the action's name and changes no table |
| ChatActions.MissingConversation | backend/api/routes/chat.py:192-193 | as intended, a missing conversation is answered 404 "Conversation not found" and changes nothing |
| ChatActions.MissingConversationAsWritten | backend/api/routes/chat.py:192-193 | as written, the same request is answered 500 with detail "404: Conversation not found" |
| ChatActions.ProposedPositions | backend/api/routes/chat.py:275-287 | one "proposed" row per allocation with a truthy ticker, each for the conversation's fund |
| ChatActions.AllocationDefaults | backend/api/routes/chat.py:276-285 | an allocation's row takes its ticker, weight 0.05 by default for both weights, and the ticker as company name when none is given |
| ChatActions.BuildNeedsFundAndPortfolio | backend/api/routes/chat.py:272 | without a truthy fund id or portfolio, no position is created and no fund is activated |
| ChatActions.BuildActivatesFund | backend/api/routes/chat.py:290-294 | with a fund row of that id, building activates that fund |
| ChatActions.ScoutingLostAsWritten | backend/api/routes/chat.py:195-215 | as written, scouting after fund creation leaves the stored phase "scouting", where the intended state says "discovered" |
| ChatActions.AnalyzingAfterLostScouting | backend/api/routes/chat.py:225-253 | as written, the analysing step that follows then finds no discovered stocks and analyses nothing |
| ChatActions.ScoutedStocksReachAnalysis | backend/api/routes/chat.py:198-253 | as intended, the analysing step after scouting analyses the first five scouted tickers |
| ChatActions.Scouting | backend/api/routes/chat.py:198-223 | scouting fails when `fund_params` is not a dict; otherwise the new state has phase "discovered", and the step proposes no position and activates no fund |
| ChatActions.Analyzing | backend/api/routes/chat.py:225-253 | analysing succeeds exactly when the discovered stocks can be sliced and iterated (a list or a string); the new state has phase "analyzed", and nothing is proposed or activated |
| ChatActions.Allocation | backend/api/routes/chat.py:275-287 | an allocation can be read exactly when it is a dict; it gives a row exactly when its ticker is truthy, and that row is "proposed", for the fund, with that ticker |
| ChatActions.Proposed | backend/api/routes/chat.py:275-287 | proposing succeeds exactly when every allocation is a dict, and gives at most one row per allocation |
| Conversations.Message | backend/models/conversation.py:63-67 | a message is a dict of exactly role, content and timestamp |
| Conversations.Appended | backend/models/conversation.py:56-68 | adding a message keeps all earlier messages (none when the list was null) and puts the new one last |
| Conversations.Conversation.constructor | backend/models/conversation.py:13-34 | a conversation object holds exactly the given row |
| Conversations.Conversation.AddMessage | backend/models/conversation.py:56-68 | `add_message` replaces the message list by the appended copy and changes no other column |
| Conversations.Conversation.ToDict | backend/models/conversation.py:46-54 | the dict has exactly id, fund_id, phase, messages and the two timestamps, leaves out `state`, and passes messages and phase through (null when missing) |
| Conversations.TwoMessages | backend/models/conversation.py:56-68 | two messages added in turn are the old list followed by both, in order |
| Conversations.AppendKeepsPrefix | backend/models/conversation.py:62-63 | adding a message leaves each earlier message unchanged |
| JsonValues.Get | backend/api/routes/chat.py:86 | `x.get(k, d)` succeeds exactly when `x` is a dict (anything else raises) |
| JsonValues.Prefix | backend/api/routes/chat.py:211 | slicing `[:n]` works on lists and strings only and keeps at most the first `n` items |
| JsonValues.Key | backend/orchestrator/pipelines/scout_pipeline.py:134-135 | the set key of a value keeps its truthiness and hashability (`True` and `1` share a key) |
| Store.Database.constructor | backend/database/connection.py:35-38 | a new database has every table empty |
| Store.FundIndex | backend/api/routes/funds.py:136-141 | looking a fund up by id finds the first row with that id, and finds none only when there is none |
| Store.Matching | backend/api/routes/funds.py:144-149 | the query by fund and ticker selects exactly the matching rows, in table order |
| Store.OneOrNone | backend/api/routes/funds.py:149 | `scalar_one_or_none` gives nothing for no row, the row for one, and raises for more |
| Store.ActiveFunds | backend/scheduler/jobs/daily.py:55-57 | the active-fund query returns only active rows of the table, and every active row |
| Store.ActivePositions | backend/scheduler/jobs/daily.py:63-68 | the active-position query returns only the fund's active rows, and every one of them |
| Store.FloatOr0 | backend/scheduler/jobs/daily.py:77 | `float(x or 0)` is 0 for a falsy value and the number itself for a number |
| Store.ActiveFundsConcat | backend/scheduler/jobs/daily.py:55-57 | the active-fund query of two tables back to back is the two queries concatenated |
| Store.ActivePositionsConcat | backend/scheduler/jobs/daily.py:63-68 | the same for the active-position query |
| Store.ActiveFundsCount | backend/scheduler/jobs/daily.py:55-57 | the query keeps every active fund row as often as the table holds it, and no other row |
| Store.ActivePositionsCount | backend/scheduler/jobs/daily.py:63-68 | the query keeps every active row of the fund as often as the table holds it, and no other row |
| Store.IdCount | backend/scheduler/jobs/daily.py:55-59 | the number of fund rows with a given id is at most the number of rows |
| Store.ActiveFundOnce | backend/scheduler/jobs/daily.py:55-59 | with unique fund ids, an active fund occurs exactly once among the active funds |
| FundsRoutes.CreateFund | backend/api/routes/funds.py:52-85 | a new "draft" fund with the lower-cased, hyphenated slug is added and answered with zero positions; a taken slug fails the commit and adds nothing; with a fresh id, unique fund ids stay unique |
| FundsRoutes.AddPosition | backend/api/routes/funds.py:129-172 | an unknown fund is a 404 and changes nothing; otherwise the position table becomes the specification `Upsert`, and the answer is the new row appended at the end or the matching row as updated in place |
| FundsRoutes.RemovePosition | backend/api/routes/funds.py:175-194 | the position table becomes the specification `Remove`, and the answer says "deleted" with the upper-cased ticker; a 404 changes nothing |
| FundsRoutes.ActivateFund | backend/api/routes/funds.py:197-214 | the fund found by id becomes "active" with today's inception date and nothing else changes, so unique fund ids stay unique; an unknown fund is a 404 |
| FundsRoutes.SimpleSlugChars | backend/api/routes/funds.py:59 | the slug has the name's length, each character lower-cased and each space turned into `-` |
| FundsRoutes.SimpleSlugIdempotent | backend/api/routes/funds.py:59 | slugging a slug gives the same slug |
| FundsRoutes.SimpleSlugExample | backend/api/routes/funds.py:59 | "Tech & AI" slugs to "tech-&-ai": only spaces are replaced |
| FundsRoutes.UpsertNew | backend/api/routes/funds.py:159-172 | without a matching position, an "active" row with the upper-cased ticker is appended |
| FundsRoutes.UpsertExisting | backend/api/routes/funds.py:151-157 | with one matching position, only its target weight (and thesis id, when given) change; every other row stays |
| FundsRoutes.UpsertIgnoresCase | backend/api/routes/funds.py:146-162 | adding a position is the same for a ticker and its upper-case form |
| FundsRoutes.RemoveUndoesInsert | backend/api/routes/funds.py:159-194 | removing a position just added restores the table |
| FundsRoutes.MatchingAppend | backend/api/routes/funds.py:144-149 | a row appended to the table matches the query exactly when its fund and ticker do |
| FundsRoutes.RemoveDeletesTheRow | backend/api/routes/funds.py:181-192 | removing deletes exactly the matching row, and no matching row remains |
| FundsRoutes.RemoveMissing | backend/api/routes/funds.py:188-189 | without a matching position the answer is 404 "Position not found" |
| FundsRoutes.SimpleSlug | backend/api/routes/funds.py:59 | `name.lower().replace(" ", "-")` keeps the length and leaves no space |
| FundsRoutes.Upsert | backend/api/routes/funds.py:144-172 | the upsert succeeds exactly when at most one row matches fund and upper-cased ticker (`scalar_one_or_none`); the table grows by one row exactly when none matched |
| FundsRoutes.Remove | backend/api/routes/funds.py:181-192 | removal succeeds exactly when exactly one row matches, and then the table has one row less |
| DailyJobs.SummaryText | backend/scheduler/jobs/daily.py:88 | a string summary keeps its first 100 characters; slicing works only for strings and lists |
| DailyJobs.AlertFor | backend/scheduler/jobs/daily.py:71-99 | an alert is raised only at level "warning" or "critical", for the fund and the position's ticker, of type "news", needing action (with the four options) exactly when critical |
| DailyJobs.PositionAlerts | backend/scheduler/jobs/daily.py:70-101 | a fund's positions raise at most one alert each |
| DailyJobs.Raised | backend/scheduler/jobs/daily.py:94-95 | one pass adds at most one alert |
| DailyJobs.MonitorFund | backend/scheduler/jobs/daily.py:70-101 | the loop over a fund's positions collects the specification `PositionAlerts` and counts them |
| DailyJobs.CollectAlerts | backend/scheduler/jobs/daily.py:59-101 | the loop over the funds collects the specification `FundAlerts` and counts them |
| DailyJobs.MonitorAllPositions | backend/scheduler/jobs/daily.py:50-106 | the alerts table grows by the alerts of every active fund's active positions, the result reports their number, and no other table changes |
| DailyJobs.FirstNumChar | backend/scheduler/jobs/daily.py:145 | the regex's group starts at the first digit or comma; a `$` just before it is outside the group |
| DailyJobs.RunEnd | backend/scheduler/jobs/daily.py:145 | a greedy run of digits (and commas, where allowed) ends at the first character outside it |
| DailyJobs.PriceMatch | backend/scheduler/jobs/daily.py:145 | `\$?([\d,]+\.?\d*)` finds nothing exactly when the text has no digit or comma, and a found group is non-empty |
| DailyJobs.ActiveTickers | backend/scheduler/jobs/daily.py:126-131 | there are no more active tickers than positions |
| DailyJobs.KeySet | backend/scheduler/jobs/daily.py:131 | the set of the tickers holds every ticker's key |
| DailyJobs.Distinct | backend/scheduler/jobs/daily.py:131 | `list(set(...))` keeps each key once, loses none, and adds nothing new |
| DailyJobs.Priced | backend/scheduler/jobs/daily.py:150-152 | writing a price keeps the number of positions |
| DailyJobs.Repriced | backend/scheduler/jobs/daily.py:134-161 | searching the tickers in turn keeps the number of positions |
| DailyJobs.UpdatedCount | backend/scheduler/jobs/daily.py:157 | at most one update is counted per ticker |
| DailyJobs.WritePrice | backend/scheduler/jobs/daily.py:150-152 | the positions become the specification `Priced` and nothing else changes |
| DailyJobs.Reprice | backend/scheduler/jobs/daily.py:134-161 | the loop over the tickers computes the specification `Repriced` and `UpdatedCount` |
| DailyJobs.RepricedStep | backend/scheduler/jobs/daily.py:134-161 | one more ticker writes its price and counts one exactly when a price was found |
| DailyJobs.UpdateAllPrices | backend/scheduler/jobs/daily.py:117-166 | an unhashable ticker fails the job and changes nothing; otherwise the distinct active tickers are repriced and the result reports the updated count |
| DailyJobs.AlertLevelRule | backend/scheduler/jobs/daily.py:82-83 | a level other than "warning" or "critical" (the default "info" included) raises no alert, and a raised alert has one of those two levels |
| DailyJobs.PositionAlertsConcat | backend/scheduler/jobs/daily.py:70-101 | the alerts of two position lists back to back are the two alert lists concatenated |
| DailyJobs.FailedPositionSkipped | backend/scheduler/jobs/daily.py:100-101 | a position whose check raises is skipped and the others are monitored as before |
| DailyJobs.MonitorAlertsShape | backend/scheduler/jobs/daily.py:59-101 | every alert of the job is "warning" or "critical", needs action exactly when critical, and belongs to a monitored fund |
| DailyJobs.PositionAlertsShape | backend/scheduler/jobs/daily.py:70-101 | every alert for one fund has those properties and that fund's id |
| DailyJobs.MatchAt | backend/scheduler/jobs/daily.py:145 | the group is the first run of digits and commas (after an optional `$` outside it) followed by an optional `.` and digits |
| DailyJobs.DollarDigits | backend/scheduler/jobs/daily.py:142-147 | a reply "... $250 ..." gives the price 250 |
| DailyJobs.DollarDecimal | backend/scheduler/jobs/daily.py:142-147 | a reply "... $d.f ..." gives the price d.f |
| DailyJobs.DollarThousands | backend/scheduler/jobs/daily.py:142-147 | a reply "... $d1,d2.f ..." gives the price d1d2.f: the thousands comma is dropped |
| DailyJobs.StrayComma | backend/scheduler/jobs/daily.py:145-147 | a comma before any digit is matched alone and `float("")` raises, so the ticker is not updated |
| DailyJobs.StrayCommaReply | backend/scheduler/jobs/daily.py:145-147 | the reply "Sure, $250" yields no price: the comma after "Sure" is the match |
| DailyJobs.NoNumberNoPrice | backend/scheduler/jobs/daily.py:145-146 | a reply without `$`, digits or commas gives no price and no error |
| DailyJobs.TickerWithKey | backend/scheduler/jobs/daily.py:131-151 | the ticker with a given key is one of the tickers, and there is one exactly when the key is in their set |
| DailyJobs.NewPrice | backend/scheduler/jobs/daily.py:150-152 | repricing changes neither a position's status nor its ticker |
| DailyJobs.RepricedPointwise | backend/scheduler/jobs/daily.py:134-152 | with distinct tickers each position ends with the price found for its own ticker (if any), independently of the others |
| DailyJobs.ActiveTickerListed | backend/scheduler/jobs/daily.py:126-131 | every active position's ticker is among the collected tickers |
| DailyJobs.PricesReachEveryActivePosition | backend/scheduler/jobs/daily.py:126-152 | every active position's ticker is searched once, and each position gets the price of its own ticker |
| DailyJobs.DistinctKeysCount | backend/scheduler/jobs/daily.py:131 | a list without repeated keys is as long as its set |
| DailyJobs.UpdatedAtMostUnique | backend/scheduler/jobs/daily.py:131-165 | the updated count never exceeds the number of distinct active tickers |
| DailyJobs.FundAlerts | backend/scheduler/jobs/daily.py:59-101 | the fund loop raises at most one alert per (fund, position) pass |
| DailyJobs.FundAlertsAreVisits | backend/scheduler/jobs/daily.py:59-101 | the alerts are those of the passes over every fund's active positions, in order |
| DailyJobs.VisitCount | backend/scheduler/jobs/daily.py:59-68 | a position is visited under a fund id once per fund row with that id, each time as often as it is an active row of that fund |
| DailyJobs.EveryActivePositionMonitoredOnce | backend/scheduler/jobs/daily.py:55-101 | with unique fund ids, every active position of an active fund is checked exactly as often as the table holds it, and nothing else is checked under that fund |
| DailyJobs.RepriceTicker | backend/scheduler/jobs/daily.py:134-157 | one ticker's pass reports whether a price was found, and then writes it to every position of that ticker; the other tables are unchanged |
| DailyJobs.QuoteFailures | backend/scheduler/jobs/daily.py:136-143 | a failed search fails with its own error; a reply that is not a dict fails at `.get` |
| DailyJobs.NoPriceExactly | backend/scheduler/jobs/daily.py:142-147 | there is no price exactly when the reply is a dict whose `text` is a string with no number in it |
| IntentInterpreter.Last | backend/agents/conversation/intent_interpreter_agent.py:149 | `[-10:]` keeps the last ten messages, or all of them when there are fewer |
| IntentInterpreter.Recent | backend/agents/conversation/intent_interpreter_agent.py:147-149 | the history can be sliced only when it is a list or a string; a list keeps its last ten entries |
| IntentInterpreter.Line | backend/agents/conversation/intent_interpreter_agent.py:150 | a message is rendered "role: content" plus a newline exactly when it is a dict with both keys |
| IntentInterpreter.BuildHistory | backend/agents/conversation/intent_interpreter_agent.py:146-151 | the history block built by the loop is the specification `HistoryText` |
| IntentInterpreter.AppendLines | backend/agents/conversation/intent_interpreter_agent.py:149-150 | the loop appending one line per message computes the specification `Lines` |
| IntentInterpreter.FundContext | backend/agents/conversation/intent_interpreter_agent.py:153-155 | a falsy current fund adds no fund block; a truthy one adds it exactly when it is a dict |
| IntentInterpreter.BuildPrompt | backend/agents/conversation/intent_interpreter_agent.py:141-167 | the prompt built is the specification `PromptText` of task and context |
| IntentInterpreter.LinesStep | backend/agents/conversation/intent_interpreter_agent.py:149-150 | one more message appends its line, or fails with its error |
| IntentInterpreter.LinesFailurePropagates | backend/agents/conversation/intent_interpreter_agent.py:149-150 | a message without role or content fails the whole prompt |
| IntentInterpreter.LinesInOrder | backend/agents/conversation/intent_interpreter_agent.py:149-150 | well-formed messages give their lines concatenated in order |
| IntentInterpreter.OlderMessagesIgnored | backend/agents/conversation/intent_interpreter_agent.py:149 | messages before the last ten do not affect the history block |
| IntentInterpreter.HistoryBlock | backend/agents/conversation/intent_interpreter_agent.py:146-151 | a non-empty history gives the header, the last ten lines and the footer |
| IntentInterpreter.NoHistoryNoBlock | backend/agents/conversation/intent_interpreter_agent.py:146-147 | an empty or missing history gives no history block |
| IntentInterpreter.FundBlockRule | backend/agents/conversation/intent_interpreter_agent.py:153-155 | the fund block is empty exactly for a falsy fund, and names "Unknown" for a fund without a name |
| IntentInterpreter.ChatRouteHasNoFundBlock | backend/api/routes/chat.py:77-84 | the chat route passes no current fund, so its prompts never hold a fund block |
| IntentInterpreter.Lines | backend/agents/conversation/intent_interpreter_agent.py:149-150 | the history lines can be written exactly when every message in the window is a dict whose role can be upper-cased |
| IntentInterpreter.PromptText | backend/agents/conversation/intent_interpreter_agent.py:141-167 | a truthy `current_fund` that is not a dict makes the prompt fail; with neither history nor fund the prompt is the message and task alone |
| RiskPipeline.SlotsOf | backend/orchestrator/pipelines/risk_pipeline.py:83-93 | stress and VaR are the settled first two results; Monte Carlo and correlation the settled last two in a full run, `{}` otherwise |
| RiskPipeline.DeclinePercent | backend/orchestrator/pipelines/risk_pipeline.py:146-150 | the worst decline is read as a non-negative percentage (50 when it cannot be read) |
| RiskPipeline.TopItems | backend/orchestrator/pipelines/risk_pipeline.py:166-167 | taking the first `n` entries of a list gives at most `n`, and nothing when the key is falsy or missing |
| RiskPipeline.DiversificationFlags | backend/orchestrator/pipelines/risk_pipeline.py:170-171 | the diversification check adds at most one flag, and none without a correlation result |
| RiskPipeline.VarFlags | backend/orchestrator/pipelines/risk_pipeline.py:174-179 | the VaR check adds at most one flag |
| RiskPipeline.Extend | backend/orchestrator/pipelines/risk_pipeline.py:163-181 | extending the flag list keeps the earlier entries first and stops at the first failure |
| RiskPipeline.IdentifyFlags | backend/orchestrator/pipelines/risk_pipeline.py:161-181 | the flags are the specification `Flags`, cut to five |
| RiskPipeline.Distinct | backend/orchestrator/pipelines/risk_pipeline.py:196 | `list(set(...))` keeps every recommendation's key once, adds nothing new, and repeats no key |
| RiskPipeline.CompileRecommendations | backend/orchestrator/pipelines/risk_pipeline.py:183-196 | the recommendations compiled are the specification `Recommendations` |
| RiskPipeline.LevelMonotone | backend/orchestrator/pipelines/risk_pipeline.py:152-159 | a larger decline never gives a lower risk level |
| RiskPipeline.LevelThresholds | backend/orchestrator/pipelines/risk_pipeline.py:152-159 | the bounds are strict: HIGH exactly above 50, MODERATE exactly on (25, 35]; 50 is MODERATE-HIGH and 25 is LOW-MODERATE |
| RiskPipeline.MissingDeclineLevel | backend/orchestrator/pipelines/risk_pipeline.py:146-155 | without a worst-case scenario, the default "-50%" gives MODERATE-HIGH |
| RiskPipeline.UnparsableDeclineLevel | backend/orchestrator/pipelines/risk_pipeline.py:147-155 | an unreadable decline falls back to 50 and gives MODERATE-HIGH |
| RiskPipeline.NonStringDeclineLevel | backend/orchestrator/pipelines/risk_pipeline.py:147-155 | a decline that is not a string also falls back to 50 |
| RiskPipeline.DefaultDecline | backend/orchestrator/pipelines/risk_pipeline.py:146-148 | the default "-50%" reads as 50 |
| RiskPipeline.DeclineDigits | backend/orchestrator/pipelines/risk_pipeline.py:148 | "-d%" reads as the number d |
| RiskPipeline.FlagsShape | backend/orchestrator/pipelines/risk_pipeline.py:161-181 | the flags are the first two stress flags, then the diversification flag, then the VaR flag: at most four, so the cut to five never drops one |
| RiskPipeline.StressFlagsFirst | backend/orchestrator/pipelines/risk_pipeline.py:166-167 | a non-empty stress flag list contributes its first two entries |
| RiskPipeline.DiversificationRule | backend/orchestrator/pipelines/risk_pipeline.py:170-171 | no correlation result gives no diversification flag; one without an assessment gives it (the default score "5/10") |
| RiskPipeline.UnparsableVarNoFlag | backend/orchestrator/pipelines/risk_pipeline.py:174-179 | a VaR percent that cannot be read raises no flag |
| RiskPipeline.VarFlagText | backend/orchestrator/pipelines/risk_pipeline.py:176-177 | a VaR percent above 3 adds "High daily VaR of" and the percent text |
| RiskPipeline.RecommendationsProperties | backend/orchestrator/pipelines/risk_pipeline.py:183-196 | at most five recommendations, without repeats, each one of the collected ones, and none of those lost |
| RiskPipeline.RecommendationSourcesShape | backend/orchestrator/pipelines/risk_pipeline.py:187-194 | the collected recommendations are the first two of stress, the first of VaR and, with a correlation result, the first two of it |
| RiskPipeline.AllFailedStillReported | backend/orchestrator/pipelines/risk_pipeline.py:83-111 | when every agent fails the report is still produced, with the error records, "N/A" summary values, MODERATE-HIGH risk, and no recommendations |
| RiskPipeline.SilentAgentsSummary | backend/orchestrator/pipelines/risk_pipeline.py:133-141 | agents that report none of the read keys give the all-"N/A" summary at MODERATE-HIGH |
| RiskPipeline.SilentAgentsFlags | backend/orchestrator/pipelines/risk_pipeline.py:161-181 | such agents give only the diversification flag, and only in a run with a correlation result |
| RiskPipeline.SilentVar | backend/orchestrator/pipelines/risk_pipeline.py:174-179 | the default VaR percent "0%" raises no flag |
| RiskPipeline.SilentAgentsRecommendations | backend/orchestrator/pipelines/risk_pipeline.py:183-196 | agents without recommendations give none |
| RiskPipeline.ReportSlots | backend/orchestrator/pipelines/risk_pipeline.py:98-111 | the report counts the positions and carries the settled agent results, with Monte Carlo and correlation as null outside a full run, whose summary then reports "N/A" loss probability and effective positions |
| RiskPipeline.AssessOverallRisk | backend/orchestrator/pipelines/risk_pipeline.py:143-159 | the overall level can be assessed exactly when `worst_case_scenario` is missing or a dict, and it is one of HIGH, MODERATE-HIGH, MODERATE and LOW-MODERATE |
| RiskPipeline.Summary | backend/orchestrator/pipelines/risk_pipeline.py:133-141 | the summary's level is the assessed level; an empty Monte Carlo result gives probability "N/A" and an empty correlation result gives effective positions "N/A" |
| RiskPipeline.Report | backend/orchestrator/pipelines/risk_pipeline.py:41-117 | a report carries the summary of its slots, at most five flags and the positions as given; the Monte Carlo and correlation sections are present exactly on a full run |
| ScoutPipeline.ThematicName | backend/orchestrator/pipelines/scout_pipeline.py:98 | a thematic scout is named "Thematic (" + theme + ")", eleven characters longer than the theme |
| ScoutPipeline.MandateText | backend/orchestrator/pipelines/scout_pipeline.py:88 | `(mandate or "").lower()` succeeds exactly when the mandate is falsy or a string; it is the lower-cased string, or "" for a falsy mandate |
| ScoutPipeline.RunsDisruption | backend/orchestrator/pipelines/scout_pipeline.py:88 | with `run_all_scouts` Disruption runs and the mandate is not read; otherwise the test fails for a truthy non-string mandate, and is true exactly when the lower-cased mandate contains "growth" or "disruption" |
| ScoutPipeline.TestDisruption | backend/orchestrator/pipelines/scout_pipeline.py:88 | the short-circuiting test computes the specification `RunsDisruption` |
| ScoutPipeline.ThemesArg | backend/orchestrator/pipelines/scout_pipeline.py:70 | `themes or []` keeps truthy themes and replaces falsy ones by the empty list |
| ScoutPipeline.ThemeItems | backend/orchestrator/pipelines/scout_pipeline.py:70-96 | iterating the themes succeeds exactly for falsy themes (no items), a list (its items) and a string (its characters); a non-empty dict or a scalar raises |
| ScoutPipeline.ThematicNames | backend/orchestrator/pipelines/scout_pipeline.py:95-101 | one thematic scout per theme, the k-th named after `str` of the k-th theme |
| ScoutPipeline.ScoutNames | backend/orchestrator/pipelines/scout_pipeline.py:73-101 | the task list has 2, plus 1 with Disruption, plus one per theme entries, and starts with Emerging Leaders then Smart Money |
| ScoutPipeline.AddThematicScouts | backend/orchestrator/pipelines/scout_pipeline.py:96-101 | the loop over the themes appends exactly the thematic scouts, in theme order |
| ScoutPipeline.PlanScouts | backend/orchestrator/pipelines/scout_pipeline.py:69-101 | the scout list built by appends is the specification `Plan`: the disruption test, then the theme iteration, then the names |
| ScoutPipeline.ScoutSelection | backend/orchestrator/pipelines/scout_pipeline.py:73-101 | Emerging Leaders and Smart Money run first, Disruption is in the list exactly when its test is true, and the thematic scouts follow in theme order |
| ScoutPipeline.PlanOutcome | backend/orchestrator/pipelines/scout_pipeline.py:69-101 | building the task list fails exactly when the mandate is read and is a truthy non-string, or the themes cannot be iterated; otherwise it is `ScoutNames` of the theme items |
| ScoutPipeline.PlanShape | backend/orchestrator/pipelines/scout_pipeline.py:73-101 | a task list that builds is the fixed scouts followed by the thematic ones |
| ScoutPipeline.StringThemes | backend/orchestrator/pipelines/scout_pipeline.py:95-101 | a list of string themes gives one "Thematic (theme)" scout per theme, in order |
| ScoutPipeline.StringThemesByCharacter | backend/orchestrator/pipelines/scout_pipeline.py:96 | a single string passed as themes is iterated character by character: one thematic scout per character |
| ScoutPipeline.NonStringThemeName | backend/orchestrator/pipelines/scout_pipeline.py:98 | a non-string theme is named after its `str`: a number by its repr, `None` as "Thematic (None)" |
| ScoutPipeline.RunScout | backend/orchestrator/pipelines/scout_pipeline.py:184-196 | a scout that returns is tagged with `_scout_name` and keeps every other key; a failing one fails with its error |
| ScoutPipeline.Tagged | backend/orchestrator/pipelines/scout_pipeline.py:106 | there is one tagged outcome per scout |
| ScoutPipeline.StockList | backend/orchestrator/pipelines/scout_pipeline.py:118-129 | a scout's stocks can be annotated exactly when they are a list of dicts (or an empty string or dict, which iterate as nothing); the list is kept in order |
| ScoutPipeline.Stamp | backend/orchestrator/pipelines/scout_pipeline.py:127-129 | every stock of a scout gets `_source` = the scout's name and keeps its other keys |
| ScoutPipeline.Aggregated | backend/orchestrator/pipelines/scout_pipeline.py:112-125 | at most one summary per result looked at: failed scouts add none |
| ScoutPipeline.StampAll | backend/orchestrator/pipelines/scout_pipeline.py:127-129 | the inner loop appends exactly the scout's stamped stocks, in order |
| ScoutPipeline.AggregateResults | backend/orchestrator/pipelines/scout_pipeline.py:109-129 | the aggregation loop computes the specification `Aggregated` |
| ScoutPipeline.AggregatedFailureSticks | backend/orchestrator/pipelines/scout_pipeline.py:112-129 | once aggregation has raised, later results do not change the outcome |
| ScoutPipeline.SummaryNames | backend/orchestrator/pipelines/scout_pipeline.py:121-125 | the summaries' names, in order |
| ScoutPipeline.TotalIsSumOfCounts | backend/orchestrator/pipelines/scout_pipeline.py:121-129 | the number of aggregated stocks is the sum of the summaries' counts |
| ScoutPipeline.EveryStockHasSource | backend/orchestrator/pipelines/scout_pipeline.py:127-129 | every aggregated stock carries a `_source` naming a scout that reported a summary |
| ScoutPipeline.SummariesOfSucceeded | backend/orchestrator/pipelines/scout_pipeline.py:112-125 | the summaries name exactly the scouts that did not fail, in task order |
| ScoutPipeline.SeenKeys | backend/orchestrator/pipelines/scout_pipeline.py:132-137 | only truthy tickers enter `seen_tickers` |
| ScoutPipeline.FirstIndices | backend/orchestrator/pipelines/scout_pipeline.py:134-138 | the kept stocks are positions of the aggregate |
| ScoutPipeline.Unique | backend/orchestrator/pipelines/scout_pipeline.py:132-144 | one unique stock per first occurrence |
| ScoutPipeline.UniqueSnocNew | backend/orchestrator/pipelines/scout_pipeline.py:136-138 | a stock with a new truthy ticker is appended |
| ScoutPipeline.UniqueSnocSkip | backend/orchestrator/pipelines/scout_pipeline.py:135-139 | a stock with an empty or missing ticker is dropped |
| ScoutPipeline.UniqueSnocSeen | backend/orchestrator/pipelines/scout_pipeline.py:139-144 | a repeated ticker marks the first kept stock with that ticker `_multi_scout` and changes nothing else |
| ScoutPipeline.MarkFirst | backend/orchestrator/pipelines/scout_pipeline.py:141-144 | the search loop marks exactly the first unique stock with the ticker |
| ScoutPipeline.DedupStep | backend/orchestrator/pipelines/scout_pipeline.py:134-144 | one pass of the loop keeps `seen_tickers` and the unique list equal to their specifications |
| ScoutPipeline.Deduplicate | backend/orchestrator/pipelines/scout_pipeline.py:132-144 | the deduplication loop computes the specification `Dedup` |
| ScoutPipeline.Dedup | backend/orchestrator/pipelines/scout_pipeline.py:132-144 | deduplication succeeds exactly when every ticker can be hashed (no list or dict ticker), and keeps at most as many stocks as it is given |
| ScoutPipeline.UniqueIsFirstOccurrences | backend/orchestrator/pipelines/scout_pipeline.py:132-138 | the unique stocks are the first occurrences, in order, all with truthy tickers, pairwise distinct |
| ScoutPipeline.FirstIndicesOrdered | backend/orchestrator/pipelines/scout_pipeline.py:134-138 | kept positions increase and no earlier stock has the same ticker |
| ScoutPipeline.UniqueTickerSet | backend/orchestrator/pipelines/scout_pipeline.py:132-138 | the unique tickers are exactly the truthy tickers of the aggregate |
| ScoutPipeline.MultiScoutMark | backend/orchestrator/pipelines/scout_pipeline.py:139-144 | a kept stock is marked `_multi_scout` exactly when its ticker occurs at least twice |
| ScoutPipeline.UniqueAtMostTotal | backend/orchestrator/pipelines/scout_pipeline.py:132-138 | there are never more unique stocks than aggregated ones |
| ScoutPipeline.DedupExample | backend/orchestrator/pipelines/scout_pipeline.py:109-144 | stocks x, y, x, z, w deduplicate to x (marked), y, z, w |
| ScoutPipeline.Discovered | backend/orchestrator/pipelines/scout_pipeline.py:46-176 | a truthy non-string mandate fails the discovery unless every scout runs; a discovery that succeeds had a task list, and `scouts_run` is its length |
| ScoutPipeline.Discover | backend/orchestrator/pipelines/scout_pipeline.py:46-182 | `discover` computes the specification `Discovered` |
| ScoutPipeline.Screen | backend/orchestrator/pipelines/scout_pipeline.py:150-176 | the final step succeeds exactly when the screener returned a dict |
| ScoutPipeline.PlanFailureFailsDiscovery | backend/orchestrator/pipelines/scout_pipeline.py:69-102 | when the task list cannot be built, the discovery fails with that error before any scout runs |
| ScoutPipeline.DiscoveryParts | backend/orchestrator/pipelines/scout_pipeline.py:106-176 | a discovery is built from the aggregate, its deduplication and the screener's dict, the screener being given the unique stocks, the mandate and `themes or []` |
| ScoutPipeline.ScoutsRunCount | backend/orchestrator/pipelines/scout_pipeline.py:167 | `scouts_run` is 2 + (1 if Disruption runs) + the number of theme items |
| ScoutPipeline.TotalDiscoveredIsSum | backend/orchestrator/pipelines/scout_pipeline.py:168 | `total_discovered` is the sum of the successful scouts' stock counts |
| ScoutPipeline.UniqueAtMostDiscovered | backend/orchestrator/pipelines/scout_pipeline.py:168-169 | `unique_stocks` never exceeds `total_discovered` |
| ScoutPipeline.SummariesNameSucceeded | backend/orchestrator/pipelines/scout_pipeline.py:112-125 | the discovery's summaries name exactly the scouts that succeeded, in task order |
| ScoutPipeline.SummariesOfAll | backend/orchestrator/pipelines/scout_pipeline.py:112-125 | aggregating all tagged outcomes summarises exactly the scouts that succeeded, in order |
| ScoutPipeline.ScreenerDefaults | backend/orchestrator/pipelines/scout_pipeline.py:164-176 | a failed or non-dict screener fails the discovery; missing tier counts are 0, a missing universe is `{}` |
| ScoutPipeline.ScreenedDefaults | backend/orchestrator/pipelines/scout_pipeline.py:159-176 | the same defaults for the final step alone, for any screener answer |
| Text.LStrip | backend/agents/base_agent.py:130 | left stripping removes only whitespace and leaves a suffix that does not start with whitespace |
| Text.RStrip | backend/agents/base_agent.py:130 | right stripping removes only whitespace and leaves a prefix that does not end with whitespace |
| Text.StripIsTrimmedSlice | backend/agents/base_agent.py:130 | `str.strip()` is the slice between the leading and trailing whitespace runs, with no whitespace at either edge |
| Text.StripIdempotent | backend/agents/base_agent.py:130 | stripping twice is stripping once |
| Text.StripPadded | backend/agents/base_agent.py:130 | stripping whitespace padding around an unpadded text gives that text |
| Text.IndexOf | backend/agents/base_agent.py:119-125 | the found position is the first occurrence at or after the start, and none is found only when there is none |
| Text.ContainsIffFound | backend/agents/base_agent.py:119 | `pat in s` holds exactly when a first occurrence exists |
| Text.FirstAtIsIndexOf | backend/agents/base_agent.py:120 | a first occurrence is what the search returns |
| Text.LastIndexOfChar | backend/agents/base_agent.py:135 | the last occurrence of a character has none of it after |
| Text.RemoveChar | backend/orchestrator/pipelines/risk_pipeline.py:148 | `.replace(c, "")` leaves no `c` and never lengthens the text |
| Text.RemoveCharConcat | backend/orchestrator/pipelines/risk_pipeline.py:148 | removing a character from a concatenation removes it from each part |
| Text.ReplaceChar | backend/api/routes/funds.py:59 | `.replace(a, b)` for single characters keeps the length and replaces each `a` by `b` |
| Text.Lower | backend/api/routes/chat.py:102 | `lower()` maps each character through the ASCII lower-case mapping |
| Text.Upper | backend/api/routes/funds.py:146 | `upper()` maps each character through the ASCII upper-case mapping |
| Text.TitleFrom | backend/api/routes/chat.py:98 | `title()` keeps the length |
| Text.Take | backend/scheduler/jobs/daily.py:88 | `[:n]` on a string is its first `n` characters, or all of them |
| Text.ParseUnsigned | backend/models/thesis.py:134-140 | an unsigned decimal literal reads as a non-negative number |
| Text.ParseDigits | backend/models/thesis.py:134-140 | a string of digits reads as its integer value |
| Text.DecimalLiteral | backend/models/thesis.py:134-140 | "d.f" reads as d plus f as a fraction |
| Text.NatToString | backend/api/routes/chat.py:221 | `str(n)` of a count is a digit string with value `n` |
| ThesisModel.CleanPriceShape | backend/models/thesis.py:137 | the cleaned price holds no `$` and no `,` and has no whitespace at either edge |
| ThesisModel.ParsePrice | backend/models/thesis.py:134-135 | a falsy price gives no target price |
| ThesisModel.CaseText | backend/models/thesis.py:117-118 | a dict case is stored as its `summary` (or null), anything else as its `str()` |
| ThesisModel.ThousandsPrice | backend/models/thesis.py:132-140 | "$a,b.c" parses to the number ab.c |
| ThesisModel.ThousandsClean | backend/models/thesis.py:137 | "$a,b.c" cleans to "ab.c" |
| ThesisModel.ParsePriceDigits | backend/models/thesis.py:132-140 | "290" and "$290" both parse to 290 |
| ThesisModel.CaseTextRules | backend/models/thesis.py:103-118 | a missing case is stored as null, a string case as itself, and an explicit null as the string "None" |
| ThesisModel.FromAnalysisMapping | backend/models/thesis.py:97-129 | each thesis column is copied from its key of the thesis, research, scores or result, with the price parsed |
| ThesisModel.FromEmptyAnalysis | backend/models/thesis.py:99-129 | an empty analysis gives a thesis with null fields and no target price |
| ThesisModel.FromAnalysisNeedsDicts | backend/models/thesis.py:99-104 | a thesis or research part that is not a dict makes `from_analysis` raise |
| ThesisModel.ToDictNumbers | backend/models/thesis.py:78-80 | conviction, target price and target weight are null when falsy and the number otherwise |
| ThesisModel.ToDictScores | backend/models/thesis.py:86-92 | the scores dict groups the score columns under their names |
| ThesisModel.FromAnalysis | backend/models/thesis.py:97-129 | building the row succeeds exactly when `thesis`, `research` and `score_breakdown` are dicts (missing ones default to `{}`); the row keeps the ticker and the fund id |
| ThesisModel.ToDict | backend/models/thesis.py:72-95 | the dict carries the row's id and ticker, and the fund id or null |
| ThesisWriter.Clean | backend/agents/research/thesis_writer_agent.py:164 | the cleaned analysis has exactly the keys that do not start with `_`, with their values |
| ThesisWriter.FormatAnalysis | backend/agents/research/thesis_writer_agent.py:158-167 | formatting succeeds exactly for analyses the method can handle (falsy ones, and dicts) |
| ThesisWriter.FormatCases | backend/agents/research/thesis_writer_agent.py:160-167 | an empty analysis gives "No analysis available", any other dict the dump of its cleaned form |
| ThesisWriter.ErrorRecordFormatsEmpty | backend/agents/research/thesis_writer_agent.py:160-167 | an `{"_error": ...}` record is formatted as the dump of `{}`, not as "No analysis available" |
| ThesisWriter.CleanIdempotent | backend/agents/research/thesis_writer_agent.py:164 | cleaning twice is cleaning once, and an analysis without underscore keys is unchanged |
| ThesisWriter.MissingResearchDefaults | backend/agents/research/thesis_writer_agent.py:130-135 | missing research slots default to `{}` and are shown as "No analysis available"; a missing ticker is empty |
| ThesisWriter.BuildPromptSucceeds | backend/agents/research/thesis_writer_agent.py:130-156 | the prompt builds exactly when all four slots can be formatted |
| ThesisWriter.BuildPrompt | backend/agents/research/thesis_writer_agent.py:130-156 | a built prompt keeps the task, and names the ticker `str(context.get("ticker", ""))` |
| WeeklyJobs.WeightsData | backend/scheduler/jobs/weekly.py:77-83 | the positions become one `{ticker, weight}` entry each, in order, the weight being the target weight converted with 0 for unset; it fails exactly when some target weight does not convert |
| WeeklyJobs.VarAmount | backend/scheduler/jobs/weekly.py:99-100 | a stored VaR amount is non-empty and holds no "$" or ","; an empty result is stored as `None` |
| WeeklyJobs.Strings | backend/scheduler/jobs/weekly.py:117 | `"; ".join` accepts the items exactly when all are strings, and then joins those strings in order |
| WeeklyJobs.RiskAlert | backend/scheduler/jobs/weekly.py:111-121 | falsy flags give no alert; an alert built is of type "risk", severity "warning", for the fund, needing no action and offering no options |
| WeeklyJobs.RiskStep | backend/scheduler/jobs/weekly.py:63-126 | a fund without active positions is skipped; a report added is for that fund and dated today, as is its alert |
| WeeklyJobs.Reports | backend/scheduler/jobs/weekly.py:60-108 | at most one report is added per active fund |
| WeeklyJobs.RiskAlerts | backend/scheduler/jobs/weekly.py:60-121 | at most one risk alert is added per active fund |
| WeeklyJobs.CollectReports | backend/scheduler/jobs/weekly.py:60-126 | the loop collects the specification `Reports` and `RiskAlerts`, and its counter equals the number of reports added |
| WeeklyJobs.GenerateRiskReports | backend/scheduler/jobs/weekly.py:47-131 | exactly those reports and alerts are appended to their tables, nothing else changes, and the result is `{status: "complete", reports_generated: <number of reports>}` |
| WeeklyJobs.RebalanceData | backend/scheduler/jobs/weekly.py:171-178 | a converted position list has one entry per active position |
| WeeklyJobs.RebalanceStep | backend/scheduler/jobs/weekly.py:158-206 | a fund without active positions is not counted; a drift alert is for the fund, titled "Rebalancing Recommended", severity "warning", needing action, with options rebalance and dismiss |
| WeeklyJobs.FundsChecked | backend/scheduler/jobs/weekly.py:186 | no more funds are counted as checked than there are active funds |
| WeeklyJobs.CollectDrift | backend/scheduler/jobs/weekly.py:155-206 | the loop collects the specification drift alerts and checked count, and `rebalance_needed` equals the number of alerts |
| WeeklyJobs.CheckRebalancing | backend/scheduler/jobs/weekly.py:142-211 | only the drift alerts are appended, every other table is unchanged, and the result reports `funds_checked` and `rebalance_needed` |
| WeeklyJobs.FundsUpdated | backend/scheduler/jobs/weekly.py:262 | no more funds are counted as updated than there are active funds |
| WeeklyJobs.CountUpdated | backend/scheduler/jobs/weekly.py:234-267 | the loop's counter equals the specification `FundsUpdated` |
| WeeklyJobs.UpdatePerformance | backend/scheduler/jobs/weekly.py:222-270 | nothing is written, and the result is `{status: "complete", funds_updated: <count>}` |
| WeeklyJobs.ReportsOnlyForFundsWithPositions | backend/scheduler/jobs/weekly.py:72-74 | every report added belongs to an active fund that has active positions |
| WeeklyJobs.PipelineFailureNoReport | backend/scheduler/jobs/weekly.py:86-90 | when the risk pipeline raises, the fund gets no report |
| WeeklyJobs.ReportedOnceVarRead | backend/scheduler/jobs/weekly.py:96-121 | once both VaR amounts are read the report is added with the pipeline's fields, and an alert is added exactly when it can be built, never for falsy flags |
| WeeklyJobs.VarAmountOf | backend/scheduler/jobs/weekly.py:99 | a string amount is stored with its "$" and "," removed, or as `None` when nothing is left |
| WeeklyJobs.VarAmountMissing | backend/scheduler/jobs/weekly.py:99 | a missing VaR entry, or an entry without an amount, is stored as `None` |
| WeeklyJobs.VarAmountThousands | backend/scheduler/jobs/weekly.py:99 | "$12,345.67" is stored as "12345.67" |
| WeeklyJobs.RiskAlertForFlags | backend/scheduler/jobs/weekly.py:111-121 | a non-empty list of string flags gives the alert titled "Weekly Risk Report: N flag(s)" whose message joins the first three flags with "; " |
| WeeklyJobs.CurrentWeightFallback | backend/scheduler/jobs/weekly.py:174-175 | the current weight sent is the position's current weight when set, else its target weight |
| WeeklyJobs.DriftAlertIffNeeded | backend/scheduler/jobs/weekly.py:186-200 | once the agent answers with a dict the fund is counted, and a drift alert is raised exactly when `needs_rebalancing` is truthy, with the answer's summary or the default message |
| WeeklyJobs.NonDictAnswerCounted | backend/scheduler/jobs/weekly.py:186-188 | an answer that is not a dict still counts the fund as checked, with no alert |
| WeeklyJobs.NeededAtMostChecked | backend/scheduler/jobs/weekly.py:186-189 | `rebalance_needed` never exceeds `funds_checked` |
| WeeklyJobs.PerformanceNoSkip | backend/scheduler/jobs/weekly.py:246-262 | a fund without active positions is not skipped: the tracker gets an empty list and the benchmarks default to "QQQ" and "SPY" |

## Left out

- Language-model calls (the Gemini client, `think` and `search`) are inputs: reply text, a source list, or a failure.
- `asyncio.gather` fan-out and the scheduler's `run_async` helpers are left out: their point is concurrency. Gathered outcomes are an ordered input sequence.
- `json.loads`, `json.dumps` and Python's `repr` are uninterpreted function parameters. The parsing round trips are stated for any text that `loads` decodes to the value.
- Numbers are only plain decimal literals read as reals. Python `float()` also accepts inf, nan, exponents and underscores, and these are not modelled.
- Unicode digits are not modelled in the price regex of `daily.py`.
- The `Decimal` result of `_parse_price` is modelled as a real. The Decimal-to-float conversion in `to_dict` is left out.
- The P&L and cost-basis arithmetic of the daily price update (backend/scheduler/jobs/daily.py:154-155) is float division that touches nothing the model observes, so it is left out.
- `lower`, `upper` and `title` map ASCII letters only.
- In the risk pipeline and the daily job, `list(set(...))` is modelled in first-occurrence order. Python's set order is an implementation detail.
- A non-empty dict is never iterated where the code expects a list. Iterating one is modelled as a failure, because dict key order is not modelled.
- Timestamps, `date.today()`, generated ids and uuids are parameters. A new fund's `uuid4` id is required to differ from every stored fund id, standing in for the primary key.
- System prompts and the scout, research, risk, portfolio and performance prompt templates are left out: they are prompt text with no logic.
- SQLAlchemy is not modelled. That covers schema, relationships, foreign-key enforcement, and commit failures other than the unique fund slug. Only the in-memory effect of add, update and delete is modelled. A request that fails before its commit rolls back; a chat turn with a non-string reply is committed and then answered 500.
- FastAPI wiring and thin routes are left out: `main.py`, `discover.py`, `portfolio.py`, `risk.py`.
- Smaller readers are not in the modelled core: `get_analysis` (backend/api/routes/analyze.py:93-111), `get_conversation` (backend/api/routes/chat.py:317-328), `list_funds` and `get_fund` (backend/api/routes/funds.py:88-126), and `quick_discover` (backend/orchestrator/pipelines/scout_pipeline.py:198-214).
- The Celery schedule, environment settings and the `test_*.py` scripts are left out. The test scripts call live services and assert nothing.
- Printing is left out. In the performance update, `is_outperforming` only feeds a print, so it is not modelled.
- Exception message texts are placeholders. Only whether an exception was raised, and where it was caught, is modelled.
- A conversation state that is not a dict and a `fund_id` that is not a string are not modelled. Both columns are typed in the schema.
- BaseAgent.RoundTrip: also requires the text to have no leading or trailing whitespace, which `json.dumps` output never has.
- ChatRoute.Validated: every non-string reply is refused, as pydantic 2 refuses it for `message: str`. Pydantic 1 would turn a number into its text, and the pydantic version is not part of this model.
- AnalyzeRoutes.Analysis: the response model's pydantic validation is not modelled. Values pass through unvalidated, so a value of the wrong type is answered instead of raising a 422 or 500.

## Findings

| source | as written | input that shows it | evidently intended | confidence | as-written member | corrected member |
|---|---|---|---|---|---|---|
| backend/api/routes/chat.py:192-193 | the `HTTPException(404)` for a missing conversation is raised inside `try ... except Exception` (lines 313-314), which turns it into a 500 with detail "404: Conversation not found" | `execute_action` with a conversation id that is not stored | a 404 with detail "Conversation not found" | not executed | ChatActions.MissingConversationAsWritten | ChatActions.MissingConversation |
| backend/api/routes/chat.py:195-215 | `state = conversation.state or {}` is changed in place and assigned back. For a non-empty loaded state this is the same dict object, so the JSON column sees no change and the new phase and discovered stocks are not stored. The conversation record itself copies its message list for exactly this reason (backend/models/conversation.py:61-68) | a "scouting" action on a conversation whose state `create_fund` has already set: the stored phase stays "scouting", and a later "analyzing" analyses nothing | the step's new state is stored, so "analyzing" works on the scouted tickers | not executed | ChatActions.StoredStateAsWritten, ChatActions.ScoutingLostAsWritten | ChatActions.ScoutedStocksReachAnalysis |
