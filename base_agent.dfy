/** The agent-invocation contract (backend/agents/base_agent.py): turning the
    reasoning service's reply text into a structured result.  The decoder
    `json.loads` is the parameter `loads`, whose `None` is a `JSONDecodeError`;
    the reply itself is an input. */
module BaseAgent {
  import opened Wrappers
  import opened Text
  import opened JsonValues

  const JsonFence := "```json"
  const Fence := "```"
  const ParseErrorMessage := "Failed to parse JSON from response"

  /** The text between the first `open` and the next "```" after it, if both exist.
      `re.search(open + r'\s*([\s\S]*?)\s*```', text)` captures this body with its
      edge whitespace removed, i.e. `Strip` of it. */
  function FencedBody(text: string, open: string): Option<string> {
    match IndexOf(text, open, 0)
    case None => None
    case Some(i) =>
      match IndexOf(text, Fence, i + |open|)
      case None => None
      case Some(c) => Some(text[i + |open|..c])
  }

  /** The string the first decoding attempt receives: `clean.strip()`. */
  function Candidate(text: string): (r: string)
    ensures |r| <= |text|
    ensures NoEdgeSpace(r)
  {
    var clean :=
      if Contains(text, JsonFence) then FencedBody(text, JsonFence).GetOr(text)
      else if Contains(text, Fence) then FencedBody(text, Fence).GetOr(text)
      else text;
    StripIsTrimmedSlice(clean);
    Strip(clean)
  }

  /** `re.search(r'\{[\s\S]*\}', text)`: from the first '{' to the last '}', when the
      last '}' comes after it. */
  function BraceSpan(text: string): (r: Option<string>)
    ensures r.Some? ==> |r.value| >= 2 && r.value[0] == '{' && r.value[|r.value| - 1] == '}'
  {
    match IndexOf(text, "{", 0)
    case None => None
    case Some(i) =>
      match LastIndexOfChar(text, '}')
      case None => None
      case Some(j) =>
        if i < j then
          assert text[i..i + 1] == "{";
          Some(text[i..j + 1])
        else None
  }

  /** The degraded result returned when nothing decodes. */
  function ErrorRecord(text: string): Json {
    JObj(map["_raw" := JStr(text), "_parse_error" := JBool(true),
             "_error_message" := JStr(ParseErrorMessage)])
  }

  /** `BaseAgent._parse_json`.  It never raises. */
  function ParseJson(text: string, loads: string -> Option<Json>): Json {
    match loads(Candidate(text))
    case Some(v) => v
    case None =>
      match BraceSpan(text)
      case None => ErrorRecord(text)
      case Some(span) =>
        match loads(span)
        case Some(v) => v
        case None => ErrorRecord(text)
  }

  /** A successful call of the reasoning service: `think` returns text,
      `search` returns text and a list of sources. */
  datatype Reply = Reply(text: string, sources: Json)

  /** `BaseAgent.run` after prompt building: `call` is the outcome of the
      reasoning call (`search` when `needsSearch`, else `think`).  On the search
      path the parsed result gets `_sources`; item assignment on anything but a
      dict raises `TypeError`. */
  function Run(needsSearch: bool, call: Result<Reply, string>, loads: string -> Option<Json>)
    : (r: Result<Json, string>)
    ensures r.Success? <==> call.Success? && (!needsSearch || ParseJson(call.value.text, loads).JObj?)
    ensures r.Success? && needsSearch ==>
              r.value.JObj? && "_sources" in r.value.fields && r.value.fields["_sources"] == call.value.sources
  {
    match call
    case Failure(e) => Failure(e)
    case Success(reply) =>
      var parsed := ParseJson(reply.text, loads);
      if !needsSearch then Success(parsed)
      else match parsed
        case JObj(m) => Success(JObj(m["_sources" := reply.sources]))
        case _ => Failure("TypeError: result does not support item assignment")
  }

  /** A branch result after `asyncio.gather(..., return_exceptions=True)` and
      `r if not isinstance(r, Exception) else {"_error": str(r)}`. */
  function Settled(outcome: Result<Obj, string>): (r: Obj)
    ensures outcome.Success? ==> r == outcome.value
    ensures outcome.Failure? ==> r == map["_error" := JStr(outcome.error)]
  {
    match outcome
    case Success(o) => o
    case Failure(e) => map["_error" := JStr(e)]
  }

  // ---------------------------------------------------------------------
  // Properties

  /** With a "```json" fence closed later on, the decoder first sees the stripped
      text between the first "```json" and the next "```" after it. */
  lemma JsonFenceCandidate(text: string, i: nat, c: nat)
    requires FirstAt(text, JsonFence, 0, i)
    requires FirstAt(text, Fence, i + |JsonFence|, c)
    ensures Candidate(text) == Strip(text[i + |JsonFence|..c])
  {
    FirstAtIsIndexOf(text, JsonFence, 0, i);
    FirstAtIsIndexOf(text, Fence, i + |JsonFence|, c);
    assert Contains(text, JsonFence) by { assert OccursAt(text, JsonFence, i); }
  }

  /** The plain fence is tried only when "```json" is absent; then the candidate
      is the stripped text between the first two "```". */
  lemma PlainFenceCandidate(text: string, i: nat, c: nat)
    requires !Contains(text, JsonFence)
    requires FirstAt(text, Fence, 0, i)
    requires FirstAt(text, Fence, i + |Fence|, c)
    ensures Candidate(text) == Strip(text[i + |Fence|..c])
  {
    FirstAtIsIndexOf(text, Fence, 0, i);
    FirstAtIsIndexOf(text, Fence, i + |Fence|, c);
    assert Contains(text, Fence) by { assert OccursAt(text, Fence, i); }
  }

  /** An unclosed "```json" does not fall through to the plain fence: the whole
      stripped text is decoded. */
  lemma UnclosedJsonFence(text: string, i: nat)
    requires FirstAt(text, JsonFence, 0, i)
    requires forall k :: i + |JsonFence| <= k ==> !OccursAt(text, Fence, k)
    ensures Candidate(text) == Strip(text)
  {
    FirstAtIsIndexOf(text, JsonFence, 0, i);
    IndexOfNone(text, Fence, i + |JsonFence|);
    assert FencedBody(text, JsonFence) == None;
    assert Contains(text, JsonFence) by { assert OccursAt(text, JsonFence, i); }
  }

  /** Without any fence the whole stripped text is decoded. */
  lemma UnfencedCandidate(text: string)
    requires !Contains(text, Fence)
    ensures Candidate(text) == Strip(text)
  {
    if Contains(text, JsonFence) {
      var k :| 0 <= k <= |text| && OccursAt(text, JsonFence, k);
      assert text[k..k + 3] == text[k..k + 7][..3];
      assert OccursAt(text, Fence, k);
    }
  }

  /** When the candidate does not decode, the fallback decodes the span from the
      first '{' to the last '}' of the original text. */
  lemma FallbackSpan(text: string, loads: string -> Option<Json>, i: nat, j: nat)
    requires loads(Candidate(text)).None?
    requires FirstAt(text, "{", 0, i)
    requires i < j < |text| && text[j] == '}' && forall k :: j < k < |text| ==> text[k] != '}'
    ensures ParseJson(text, loads) ==
              (match loads(text[i..j + 1]) case Some(v) => v case None => ErrorRecord(text))
  {
    BraceSpanIs(text, i, j);
  }

  lemma BraceSpanIs(text: string, i: nat, j: nat)
    requires FirstAt(text, "{", 0, i)
    requires i < j < |text| && text[j] == '}' && forall k :: j < k < |text| ==> text[k] != '}'
    ensures BraceSpan(text) == Some(text[i..j + 1])
  {
    FirstAtIsIndexOf(text, "{", 0, i);
    var l := LastIndexOfChar(text, '}');
    assert l.Some?;
    assert l.value == j;
  }

  /** When every attempt fails, the result is exactly the error record, whose
      `_raw` is the original text. */
  lemma TotalFailure(text: string, loads: string -> Option<Json>)
    requires loads(Candidate(text)).None?
    requires BraceSpan(text).None? || loads(BraceSpan(text).value).None?
    ensures ParseJson(text, loads) == ErrorRecord(text)
    ensures ParseJson(text, loads).fields["_raw"] == JStr(text)
    ensures ParseJson(text, loads).fields["_parse_error"] == JBool(true)
  {
    var c := loads(Candidate(text));
    assert c.None?;
    assert ParseJson(text, loads) == ErrorRecord(text);
    ErrorRecordFields(text);
  }

  lemma ErrorRecordFields(text: string)
    ensures ErrorRecord(text).JObj?
    ensures ErrorRecord(text).fields["_raw"] == JStr(text)
    ensures ErrorRecord(text).fields["_parse_error"] == JBool(true)
  {
  }

  /** Whatever `parse_json` returns comes from one of its three sources. */
  lemma ParseJsonSources(text: string, loads: string -> Option<Json>)
    ensures var r := ParseJson(text, loads);
      || loads(Candidate(text)) == Some(r)
      || (BraceSpan(text).Some? && loads(BraceSpan(text).value) == Some(r))
      || r == ErrorRecord(text)
  {
  }

  lemma NoFenceNoJsonFence(s: string)
    requires !Contains(s, Fence)
    ensures !Contains(s, JsonFence)
  {
    if Contains(s, JsonFence) {
      var k :| 0 <= k <= |s| && OccursAt(s, JsonFence, k);
      assert s[k..k + 3] == s[k..k + 7][..3];
      assert OccursAt(s, Fence, k);
    }
  }

  /** In "```json\n" + s + "\n```" with no "```" inside `s`, the first "```" after
      the opening fence is the closing one. */
  lemma ClosingFenceOfWrapped(s: string)
    requires !Contains(s, Fence)
    ensures FirstAt("```json\n" + s + "\n```", JsonFence, 0, 0)
    ensures FirstAt("```json\n" + s + "\n```", Fence, |JsonFence|, |s| + 9)
  {
    var w := "```json\n" + s + "\n```";
    assert w[0..7] == JsonFence;
    assert w[|s| + 9..|s| + 12] == Fence;
    assert |w| == |s| + 12;
    forall k | 7 <= k < |s| + 9
      ensures !OccursAt(w, Fence, k)
    {
      assert k + 3 <= |w|;
      if k == 7 {
        assert w[k..k + 3][0] == '\n';
        assert w[k..k + 3] != Fence;
      } else if k + 3 <= |s| + 8 {
        assert w[k..k + 3] == s[k - 8..k - 5];
        assert !OccursAt(s, Fence, k - 8);
        assert w[k..k + 3] != Fence;
      } else {
        assert w[k..k + 3][|s| + 8 - k] == w[|s| + 8] == '\n';
        assert w[k..k + 3] != Fence;
      }
    }
  }

  /** Round trip, bare: if `s` is the serialisation of `v` (it decodes to `v`, has
      no edge whitespace, as `json.dumps` output has none) and holds no "```",
      parsing `s` gives `v`. */
  lemma RoundTrip(v: Json, s: string, loads: string -> Option<Json>)
    requires loads(s) == Some(v)
    requires NoEdgeSpace(s)
    requires !Contains(s, Fence)
    ensures ParseJson(s, loads) == v
  {
    UnfencedCandidate(s);
    StripNoEdge(s);
  }

  /** Round trip, fenced: the same serialisation inside a "```json" fence parses to `v`. */
  lemma FencedRoundTrip(v: Json, s: string, loads: string -> Option<Json>)
    requires loads(s) == Some(v)
    requires NoEdgeSpace(s)
    requires !Contains(s, Fence)
    ensures ParseJson("```json\n" + s + "\n```", loads) == v
  {
    CandidateOfWrapped(s);
  }

  lemma CandidateOfWrapped(s: string)
    requires NoEdgeSpace(s)
    requires !Contains(s, Fence)
    ensures Candidate("```json\n" + s + "\n```") == s
  {
    WrappedCandidateSlice(s);
    BodyOfWrapped(s);
    StripNewlines(s);
  }

  lemma StripNewlines(s: string)
    requires NoEdgeSpace(s)
    ensures Strip("\n" + s + "\n") == s
  {
    assert AllSpace("\n");
    StripPadded("\n", s, "\n");
  }

  /** The candidate of a wrapped reply is the stripped text between the fences. */
  lemma WrappedCandidateSlice(s: string)
    requires !Contains(s, Fence)
    ensures |s| + 9 <= |"```json\n" + s + "\n```"|
    ensures Candidate("```json\n" + s + "\n```") == Strip(("```json\n" + s + "\n```")[|JsonFence|..|s| + 9])
  {
    var w := "```json\n" + s + "\n```";
    ClosingFenceOfWrapped(s);
    JsonFenceCandidate(w, 0, |s| + 9);
  }

  lemma BodyOfWrapped(s: string)
    ensures ("```json\n" + s + "\n```")[|JsonFence|..|s| + 9] == "\n" + s + "\n"
  {
  }

  /** On the search path a successful result is a dict carrying the provider's
      sources under `_sources`, and nothing else changes. */
  lemma SearchResultIsObject(call: Result<Reply, string>, loads: string -> Option<Json>)
    requires Run(true, call, loads).Success?
    ensures call.Success?
    ensures var r := Run(true, call, loads).value;
      && r.JObj?
      && ParseJson(call.value.text, loads).JObj?
      && r.fields == ParseJson(call.value.text, loads).fields["_sources" := call.value.sources]
  {
  }

  /** The think path returns the parse result unchanged; a search-path parse that
      is not a dict makes the call fail. */
  lemma ThinkPathUnchanged(call: Result<Reply, string>, loads: string -> Option<Json>)
    ensures call.Success? ==> Run(false, call, loads) == Success(ParseJson(call.value.text, loads))
    ensures call.Success? && !ParseJson(call.value.text, loads).JObj? ==> Run(true, call, loads).Failure?
    ensures call.Failure? ==> Run(false, call, loads) == Failure(call.error) == Run(true, call, loads)
  {
  }
}
