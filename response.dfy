/**
 * Gemini `generateContent` response -> Claude Messages response (the non-streaming path).
 *
 * `uuid(k)` is the k-th random UUID the conversion draws: one per function call, in order,
 * then one for the message id. `JSON.parse` of a string envelope is the parameter `parse`.
 */
module Response {
  import opened Wire

  // ---------------------------------------------------------------- Gemini side

  datatype GeminiCall = GeminiCall(name: string, args: Json)

  /** A response part. `thought` is `part.thought === true`; absent strings are `""`. */
  datatype GeminiPart = GeminiPart(
    text: string,
    thought: bool,
    thoughtSignature: string,
    thought_signature: string,
    functionCall: Option<GeminiCall>)

  /** A grounding chunk's `web.title` and `web.uri` (`""` when absent). */
  datatype GroundingChunk = GroundingChunk(title: string, uri: string)

  /** A candidate: `content.parts` (empty when absent), `finishReason` (`""` when absent). */
  datatype Candidate = Candidate(parts: seq<GeminiPart>, finishReason: string, groundingChunks: seq<GroundingChunk>)

  /** `usageMetadata`; a missing counter is 0. */
  datatype Usage = Usage(promptTokenCount: int, candidatesTokenCount: int, cachedContentTokenCount: int)

  /** The `response` field the Code Assist API wraps around the real response. */
  datatype Envelope = NoEnvelope | EnvelopeObject(inner: GeminiResponse) | EnvelopeString(text: string)

  datatype GeminiResponse = GeminiResponse(
    candidates: Option<seq<Candidate>>,
    blockReason: string,
    usageMetadata: Option<Usage>,
    response: Envelope)

  // ---------------------------------------------------------------- Claude side

  datatype ClaudeBlock =
    | CText(text: string)
    /** `signature` is `""` when the thought part had none. */
    | CThinking(thinking: string, signature: string)
    | CToolUse(id: string, name: string, input: Json)

  datatype ClaudeUsage = ClaudeUsage(inputTokens: int, outputTokens: int, cacheReadInputTokens: int)

  datatype ClaudeResponse = ClaudeResponse(
    id: string,
    model: string,
    content: seq<ClaudeBlock>,
    stopReason: string,
    stopSequence: Option<string>,
    usage: ClaudeUsage)

  // ---------------------------------------------------------------- the conversion

  /** The response the candidates are read from: a wrapped one when it has candidates. */
  function Unwrap(g: GeminiResponse, parse: string -> Option<GeminiResponse>): (a: GeminiResponse)
    ensures a == g || a.candidates.Some?
    ensures g.response.NoEnvelope? ==> a == g
    ensures g.response.EnvelopeObject? ==> a == (if g.response.inner.candidates.Some? then g.response.inner else g)
    ensures g.response.EnvelopeString? && (g.response.text == "" || parse(g.response.text).None?) ==> a == g
    ensures g.response.EnvelopeString? && g.response.text != "" && parse(g.response.text).Some? ==>
      var p := parse(g.response.text).value;
      a == (if p.candidates.Some? then p
            else if p.response.EnvelopeObject? && p.response.inner.candidates.Some? then p.response.inner
            else g)
  {
    match g.response
    case EnvelopeObject(inner) => if inner.candidates.Some? then inner else g
    case EnvelopeString(text) =>
      if text == "" then g
      else (match parse(text)
        case None => g
        case Some(p) =>
          if p.candidates.Some? then p
          else if p.response.EnvelopeObject? && p.response.inner.candidates.Some? then p.response.inner
          else g)
    case NoEnvelope => g
  }

  /** The first candidate, or the synthetic one for a blocked or empty response. */
  function PickCandidate(a: GeminiResponse): (c: Candidate)
    ensures (a.candidates.None? || a.candidates.value == []) && a.blockReason != "" ==>
      c.finishReason == "SAFETY" && |c.parts| == 1 &&
      c.parts[0].text == "[Request blocked by Gemini: " + a.blockReason + "]"
    ensures a.candidates.Some? && a.candidates.value != [] ==> c == a.candidates.value[0]
    ensures (a.candidates.None? || a.candidates.value == []) && a.blockReason == "" ==>
      c.finishReason == "STOP" && |c.parts| == 1 && CountProductive(c.parts) == 0
  {
    if a.candidates.Some? && a.candidates.value != [] then a.candidates.value[0]
    else if a.blockReason != "" then
      Candidate([GeminiPart("[Request blocked by Gemini: " + a.blockReason + "]", false, "", "", None)], "SAFETY", [])
    else Candidate([GeminiPart("", false, "", "", None)], "STOP", [])
  }

  function PartSignature(p: GeminiPart): string {
    if p.thoughtSignature != "" then p.thoughtSignature else p.thought_signature
  }

  /** `thought === true`, or a signature together with text. */
  predicate IsThought(p: GeminiPart) {
    p.thought || (PartSignature(p) != "" && p.text != "")
  }

  /** Parts that produce a block: those with text, and the function calls. */
  predicate Productive(p: GeminiPart) {
    p.text != "" || p.functionCall.Some?
  }

  function Prefix8(s: string): (r: string)
    ensures |r| <= 8
  {
    if |s| <= 8 then s else s[..8]
  }

  function ToolUseId(uuid: string): (id: string)
    ensures StartsWith(id, "toolu_")
  {
    var id := "toolu_" + Prefix8(uuid);
    assert id[..6] == "toolu_";
    id
  }

  /** The parts loop; `k` counts the UUIDs drawn so far. */
  function ConvertParts(parts: seq<GeminiPart>, uuid: nat -> string, k: nat): seq<ClaudeBlock> {
    if parts == [] then []
    else
      var p := parts[0];
      if IsThought(p) && p.text != "" then [CThinking(p.text, PartSignature(p))] + ConvertParts(parts[1..], uuid, k)
      else if p.text != "" then [CText(p.text)] + ConvertParts(parts[1..], uuid, k)
      else if p.functionCall.Some? then
        [CToolUse(ToolUseId(uuid(k)), p.functionCall.value.name, p.functionCall.value.args)]
          + ConvertParts(parts[1..], uuid, k + 1)
      else ConvertParts(parts[1..], uuid, k)
  }

  function CountProductive(parts: seq<GeminiPart>): nat {
    if parts == [] then 0 else (if Productive(parts[0]) then 1 else 0) + CountProductive(parts[1..])
  }

  function CountCalls(parts: seq<GeminiPart>): nat {
    if parts == [] then 0
    else (if parts[0].text == "" && parts[0].functionCall.Some? then 1 else 0) + CountCalls(parts[1..])
  }

  /** The parts that produce a block, in order. */
  function Productives(parts: seq<GeminiPart>): seq<GeminiPart> {
    if parts == [] then []
    else (if Productive(parts[0]) then [parts[0]] else []) + Productives(parts[1..])
  }

  /** The block a part becomes, written as the classification the converter promises. */
  predicate BlockFrom(b: ClaudeBlock, p: GeminiPart) {
    match b
    case CThinking(t, sig) => p.text != "" && t == p.text && IsThought(p) && sig == PartSignature(p)
    case CText(t) => p.text != "" && t == p.text && !IsThought(p)
    case CToolUse(id, name, input) =>
      p.text == "" && p.functionCall == Some(GeminiCall(name, input)) && StartsWith(id, "toolu_")
  }

  /**
   * One block per productive part, in order: thoughts (by flag, or by signature plus text)
   * become thinking blocks with their signature, other text becomes text, and a function
   * call becomes a `tool_use` with a `toolu_` id.
   */
  lemma {:induction false} PartsClassified(parts: seq<GeminiPart>, uuid: nat -> string, k: nat)
    ensures |ConvertParts(parts, uuid, k)| == CountProductive(parts) == |Productives(parts)|
    ensures forall i :: 0 <= i < |Productives(parts)| ==> BlockFrom(ConvertParts(parts, uuid, k)[i], Productives(parts)[i])
    ensures forall b :: b in ConvertParts(parts, uuid, k) ==> exists p :: p in parts && BlockFrom(b, p)
    ensures (exists b :: b in ConvertParts(parts, uuid, k) && b.CToolUse?) <==> CountCalls(parts) > 0
  {
    if parts != [] {
      PartsClassified(parts[1..], uuid, if parts[0].text == "" && parts[0].functionCall.Some? then k + 1 else k);
      var p := parts[0];
      var r := ConvertParts(parts, uuid, k);
      if Productive(p) {
        assert r[0] in r;
        assert BlockFrom(r[0], p);
        var rest := ConvertParts(parts[1..], uuid, if parts[0].text == "" && parts[0].functionCall.Some? then k + 1 else k);
        assert r == [r[0]] + rest;
        assert Productives(parts) == [p] + Productives(parts[1..]);
      } else {
        assert Productives(parts) == Productives(parts[1..]);
      }
      forall b | b in ConvertParts(parts, uuid, k) ensures exists p :: p in parts && BlockFrom(b, p) {
        if !(Productive(parts[0]) && b == r[0]) {
          var rest := ConvertParts(parts[1..], uuid, if parts[0].text == "" && parts[0].functionCall.Some? then k + 1 else k);
          assert b in rest;
          var q :| q in parts[1..] && BlockFrom(b, q);
          assert q in parts;
        }
      }
    }
  }

  /** The stop reason and stop sequence before the `tool_use` override. */
  function FinishMapping(finishReason: string): (string, Option<string>) {
    if finishReason == "MAX_TOKENS" then ("max_tokens", None)
    else if finishReason == "SAFETY" then ("stop_sequence", Some("SAFETY"))
    else if finishReason == "RECITATION" then ("stop_sequence", Some("RECITATION"))
    else ("end_turn", None)
  }

  const SafetyNotice := "[Content blocked by Gemini Safety Filters]"
  const RecitationNotice := "[Content blocked by Gemini Recitation Checks]"

  /** An empty SAFETY or RECITATION answer gets a bracketed notice. */
  function WithNotice(content: seq<ClaudeBlock>, finishReason: string): seq<ClaudeBlock> {
    if content == [] && finishReason == "SAFETY" then [CText(SafetyNotice)]
    else if content == [] && finishReason == "RECITATION" then [CText(RecitationNotice)]
    else content
  }

  predicate HasToolUse(content: seq<ClaudeBlock>) {
    exists i :: 0 <= i < |content| && content[i].CToolUse?
  }

  function UsageOf(u: Option<Usage>): ClaudeUsage {
    match u
    case None => ClaudeUsage(0, 0, 0)
    case Some(x) => ClaudeUsage(x.promptTokenCount, x.candidatesTokenCount, x.cachedContentTokenCount)
  }

  /** `convertResponse`. */
  function ConvertResponse(g: GeminiResponse, model: string, parse: string -> Option<GeminiResponse>,
                           uuid: nat -> string): (r: ClaudeResponse)
    ensures StartsWith(r.id, "msg_") && r.model == model
    ensures HasToolUse(r.content) ==> r.stopReason == "tool_use"
    ensures !HasToolUse(r.content) ==> r.stopReason == FinishMapping(PickCandidate(Unwrap(g, parse)).finishReason).0
    ensures r.stopSequence == FinishMapping(PickCandidate(Unwrap(g, parse)).finishReason).1
    ensures var c := PickCandidate(Unwrap(g, parse));
      r.content == WithNotice(ConvertParts(c.parts, uuid, 0), c.finishReason)
    ensures var a := Unwrap(g, parse);
      r.usage == UsageOf(if a.usageMetadata.Some? then a.usageMetadata else g.usageMetadata)
  {
    var a := Unwrap(g, parse);
    var c := PickCandidate(a);
    var blocks := ConvertParts(c.parts, uuid, 0);
    var content := WithNotice(blocks, c.finishReason);
    var (reason, sequence) := FinishMapping(c.finishReason);
    var usage := if a.usageMetadata.Some? then a.usageMetadata else g.usageMetadata;
    var id := "msg_" + uuid(CountCalls(c.parts));
    assert id[..4] == "msg_";
    ClaudeResponse(id, model, content, if HasToolUse(content) then "tool_use" else reason, sequence, UsageOf(usage))
  }

  /**
   * The finish-reason rules: a function call forces `tool_use`; `MAX_TOKENS` is `max_tokens`;
   * SAFETY and RECITATION stop on a sequence named after the reason and, when nothing else
   * was produced, answer with the bracketed notice; anything else ends the turn.
   */
  lemma StopReasonRules(g: GeminiResponse, model: string, parse: string -> Option<GeminiResponse>,
                        uuid: nat -> string)
    ensures var c := PickCandidate(Unwrap(g, parse));
      var r := ConvertResponse(g, model, parse, uuid);
      && (CountCalls(c.parts) > 0 <==> HasToolUse(r.content))
      && (CountCalls(c.parts) > 0 ==> r.stopReason == "tool_use")
      && (CountCalls(c.parts) == 0 && c.finishReason == "MAX_TOKENS" ==> r.stopReason == "max_tokens")
      && (CountCalls(c.parts) == 0 && c.finishReason in {"SAFETY", "RECITATION"} ==>
            r.stopReason == "stop_sequence" && r.stopSequence == Some(c.finishReason))
      && (c.finishReason !in {"MAX_TOKENS", "SAFETY", "RECITATION"} ==> r.stopSequence.None?)
      && (c.finishReason !in {"MAX_TOKENS", "SAFETY", "RECITATION"} && CountCalls(c.parts) == 0 ==>
            r.stopReason == "end_turn")
      && (c.finishReason == "SAFETY" && CountProductive(c.parts) == 0 ==> r.content == [CText(SafetyNotice)])
      && (c.finishReason == "RECITATION" && CountProductive(c.parts) == 0 ==>
            r.content == [CText(RecitationNotice)])
      && (c.finishReason !in {"SAFETY", "RECITATION"} ==> r.content == ConvertParts(c.parts, uuid, 0))
      && (CountProductive(c.parts) > 0 ==> r.content == ConvertParts(c.parts, uuid, 0))
  {
    var c := PickCandidate(Unwrap(g, parse));
    ToolUseIffCalls(c.parts, uuid);
    assert !HasToolUse([CText(SafetyNotice)]) && !HasToolUse([CText(RecitationNotice)]);
  }

  /**
   * The converted blocks hold a `tool_use` exactly when the parts hold a function call, and
   * they are empty exactly when no part is productive.
   */
  lemma ToolUseIffCalls(parts: seq<GeminiPart>, uuid: nat -> string)
    ensures CountCalls(parts) > 0 <==> HasToolUse(ConvertParts(parts, uuid, 0))
    ensures CountProductive(parts) == 0 <==> ConvertParts(parts, uuid, 0) == []
  {
    var blocks := ConvertParts(parts, uuid, 0);
    PartsClassified(parts, uuid, 0);
    if HasToolUse(blocks) {
      var i :| 0 <= i < |blocks| && blocks[i].CToolUse?;
      assert blocks[i] in blocks;
    }
    if CountCalls(parts) > 0 {
      var b :| b in blocks && b.CToolUse?;
      var i :| 0 <= i < |blocks| && blocks[i] == b;
    }
  }

  /** Missing usage counts come out as 0. */
  lemma UsageDefaults(g: GeminiResponse, model: string, parse: string -> Option<GeminiResponse>,
                      uuid: nat -> string)
    requires Unwrap(g, parse).usageMetadata.None? && g.usageMetadata.None?
    ensures ConvertResponse(g, model, parse, uuid).usage == ClaudeUsage(0, 0, 0)
  {
  }
}
