/**
 * The streaming reconstructor: Gemini stream chunks -> Claude Messages stream events.
 *
 * A `StreamState` lives for one response stream and is updated in place by each call of
 * `ConvertStreamChunk`, which walks the chunk's parts (explicit thinking, signature, text,
 * grounding, function call, in that order for each part) and then handles the finish reason.
 * Each step is specified by a function on a `State` value; the methods of the class are proved
 * to move their fields exactly as those functions say, and the lemmas prove the block
 * discipline Claude clients rely on about the functions.
 */
module Stream {
  import opened Wire
  import opened Response

  // ---------------------------------------------------------------- events

  datatype BlockContent =
    | TextStart
    | ThinkingStart
    /** A `tool_use` block; its `input` starts as `{}` and arrives as JSON deltas. */
    | ToolUseStart(id: string, name: string)
    /** A `web_search_tool_result` block: one `web_search_result` per grounding chunk. */
    | SearchResultStart(toolUseId: string, content: seq<GroundingChunk>)

  datatype Delta =
    | TextDelta(text: string)
    | ThinkingDelta(thinking: string)
    | SignatureDelta(signature: string)
    | InputJsonDelta(partialJson: string)

  datatype Event =
    | BlockStart(index: nat, block: BlockContent)
    | BlockDelta(index: nat, delta: Delta)
    | BlockStop(index: nat)
    | MessageDelta(stopReason: string, stopSequence: Option<string>, outputTokens: int)
    | MessageStop

  // ---------------------------------------------------------------- chunks

  /** The fields of a chunk the converter reads; `candidates` and `usageMetadata` may be absent. */
  datatype ChunkBody = ChunkBody(candidates: Option<seq<Candidate>>, usageMetadata: Option<Usage>)

  /** A parsed stream chunk, possibly wrapped in the Code Assist API's `response` field. */
  datatype Chunk = Chunk(body: ChunkBody, response: Option<ChunkBody>)

  /** `geminiChunk.response || geminiChunk`. */
  function Actual(c: Chunk): ChunkBody {
    if c.response.Some? then c.response.value else c.body
  }

  /** `actualChunk.candidates?.[0]`. */
  function CandidateOf(c: Chunk): Option<Candidate> {
    var a := Actual(c);
    if a.candidates.Some? && |a.candidates.value| > 0 then Some(a.candidates.value[0]) else None
  }

  function PartsOf(c: Chunk): seq<GeminiPart> {
    var cand := CandidateOf(c);
    if cand.Some? then cand.value.parts else []
  }

  function GroundingOf(c: Chunk): seq<GroundingChunk> {
    var cand := CandidateOf(c);
    if cand.Some? then cand.value.groundingChunks else []
  }

  function FinishReasonOf(c: Chunk): string {
    var cand := CandidateOf(c);
    if cand.Some? then cand.value.finishReason else ""
  }

  /** `usage?.candidatesTokenCount || 0`, with `usage = actual.usageMetadata || chunk.usageMetadata`. */
  function OutputTokens(c: Chunk): int {
    var u := if Actual(c).usageMetadata.Some? then Actual(c).usageMetadata else c.body.usageMetadata;
    if u.Some? then u.value.candidatesTokenCount else 0
  }

  /**
   * What a call draws from outside: the UUID behind the tool-use id of the function call in
   * part `i`, the UUID behind the grounding block's id, the millisecond clock reading behind
   * the automatic signature, and `JSON.stringify`.
   */
  datatype Env = Env(toolUuid: nat -> string, searchUuid: string, nowMs: int, stringify: Json -> string)

  /** `Buffer.from('auto_gemini2_' + Date.now()).toString('base64')`. */
  function AutoSignature(nowMs: int): (r: string)
    ensures r != ""
  {
    EncodeBase64("auto_gemini2_" + IntToString(nowMs))
  }

  function SearchToolId(uuid: string): (id: string)
    ensures StartsWith(id, "srvtoolu_")
  {
    var id := "srvtoolu_" + Prefix8(uuid);
    assert id[..9] == "srvtoolu_";
    id
  }

  const NoContent := "(no content)"
  const ThinkingDone := "[思考完成]"

  // ---------------------------------------------------------------- the state

  /** `currentType`: the kind of the block left open between parts, or none (`null`). */
  datatype Open = NoBlock | TextOpen | ThinkingOpen

  datatype State = State(
    index: nat,
    currentType: Open,
    hasToolUse: bool,
    pendingText: string,
    hasTextContent: bool,
    hasThinkingContent: bool,
    hasThinkingDelta: bool,
    thinkingText: string,
    signatureSent: bool)

  /** The state a new stream starts from. */
  const Initial := State(0, NoBlock, false, "", false, false, false, "", false)

  /** The new state and the events one step yields. */
  datatype Step = Step(state: State, events: seq<Event>)

  // ---------------------------------------------------------------- the steps

  /** `if (currentType) { stop; index++ }`, leaving no block open. */
  function CloseBlock(s: State): Step {
    if s.currentType == NoBlock then Step(s, [])
    else Step(s.(index := s.index + 1, currentType := NoBlock), [BlockStop(s.index)])
  }

  function StartOf(want: Open): BlockContent {
    if want == TextOpen then TextStart else ThinkingStart
  }

  /** `if (currentType !== want) { close; currentType = want; start }`. */
  function EnterBlock(s: State, want: Open): Step
    requires want != NoBlock
  {
    if s.currentType == want then Step(s, [])
    else
      var c := CloseBlock(s);
      Step(c.state.(currentType := want), c.events + [BlockStart(c.state.index, StartOf(want))])
  }

  /** Step 1: a `thought: true` part with text; late thinking after text is demoted to text. */
  function ThinkingStep(s: State, p: GeminiPart): Step {
    if !(p.thought && p.text != "") then Step(s, [])
    else if s.hasTextContent then
      var e := EnterBlock(s, TextOpen);
      Step(e.state, e.events + [BlockDelta(e.state.index, TextDelta("\n" + p.text))])
    else
      var e := EnterBlock(s.(hasThinkingContent := true), ThinkingOpen);
      Step(e.state.(hasThinkingDelta := true, thinkingText := e.state.thinkingText + p.text),
           e.events + [BlockDelta(e.state.index, ThinkingDelta(p.text))])
  }

  /** The pending-text flush after a signature: left-trimmed, emitted as a text block if non-empty. */
  function FlushPending(s: State): Step {
    if s.pendingText == "" then Step(s, [])
    else
      var cleaned := TrimStart(s.pendingText);
      if cleaned == "" then Step(s.(pendingText := ""), [])
      else
        Step(s.(currentType := TextOpen, hasTextContent := true, pendingText := ""),
             [BlockStart(s.index, TextStart), BlockDelta(s.index, TextDelta(cleaned))])
  }

  /** `if (!hasThinkingDelta)`: a thinking block that carried no text gets `(no content)`. */
  function WithPlaceholder(e: Step): Step {
    if e.state.hasThinkingDelta then e
    else Step(e.state, e.events + [BlockDelta(e.state.index, ThinkingDelta(NoContent))])
  }

  /** The signature delta, then the thinking block's stop. */
  function Seal(e: Step, sig: string): Step {
    var i := e.state.index;
    Step(e.state.(signatureSent := true, index := i + 1, currentType := NoBlock),
         e.events + [BlockDelta(i, SignatureDelta(sig)), BlockStop(i)])
  }

  /** Emits the signature (after a placeholder if no thinking text was sent) and closes the block. */
  function SignAndClose(e: Step, sig: string): Step {
    Seal(WithPlaceholder(e), sig)
  }

  /** Signing and closing after earlier events appends to those events. */
  lemma SignAndCloseSplit(e: Step, sig: string)
    ensures SignAndClose(e, sig).state == SignAndClose(Step(e.state, []), sig).state
    ensures SignAndClose(e, sig).events == e.events + SignAndClose(Step(e.state, []), sig).events
  {
    if !e.state.hasThinkingDelta {
      var i := e.state.index;
      assert SignAndClose(Step(e.state, []), sig).events
        == [BlockDelta(i, ThinkingDelta(NoContent)), BlockDelta(i, SignatureDelta(sig)), BlockStop(i)];
    }
  }

  /** Step 2: a part's signature closes the thinking block, once per stream. */
  function SignatureStep(s: State, sig: string): Step {
    var shouldProcess := s.currentType == ThinkingOpen || s.hasThinkingContent || !s.hasTextContent;
    if sig == "" || !shouldProcess || s.signatureSent then Step(s, [])
    else
      var c := SignAndClose(EnterBlock(s.(hasThinkingContent := true), ThinkingOpen), sig);
      var f := FlushPending(c.state);
      Step(f.state, c.events + f.events)
  }

  /** The automatic signature that closes unsigned thinking before the first text. */
  function AutoSignStep(s: State, autoSig: string): Step {
    if !(s.hasThinkingContent && !s.signatureSent) then Step(s, [])
    else if s.currentType == ThinkingOpen then Seal(Step(s, []), autoSig)
    else Seal(WithPlaceholder(EnterBlock(s, ThinkingOpen)), autoSig)
  }

  /** Step 3: the text of a part that is not explicit thinking. */
  function TextStep(s: State, p: GeminiPart, autoSig: string): Step {
    if p.text == "" || p.thought then Step(s, [])
    else
      var a := AutoSignStep(s, autoSig);
      var e := EnterBlock(a.state.(hasTextContent := true), TextOpen);
      Step(e.state, a.events + e.events + [BlockDelta(e.state.index, TextDelta(p.text))])
  }

  /** Step 4: the candidate's grounding chunks, on the last part only. */
  function GroundingStep(s: State, grounding: seq<GroundingChunk>, isLast: bool, searchUuid: string): Step {
    if grounding == [] || !isLast then Step(s, [])
    else
      var c := CloseBlock(s);
      var i := c.state.index;
      Step(c.state.(index := i + 1),
           c.events + [BlockStart(i, SearchResultStart(SearchToolId(searchUuid), grounding)), BlockStop(i)])
  }

  /** Step 5: a function call becomes a complete `tool_use` block. */
  function ToolStep(s: State, call: Option<GeminiCall>, uuid: string, stringify: Json -> string): Step {
    if call.None? then Step(s, [])
    else
      var c := CloseBlock(s.(hasToolUse := true));
      var i := c.state.index;
      Step(c.state.(index := i + 1),
           c.events + [BlockStart(i, ToolUseStart(ToolUseId(uuid), call.value.name)),
                       BlockDelta(i, InputJsonDelta(stringify(call.value.args))),
                       BlockStop(i)])
  }

  /** The five steps for part `i` of `parts`. */
  function PartStep(s: State, parts: seq<GeminiPart>, i: nat, grounding: seq<GroundingChunk>, env: Env): Step
    requires i < |parts|
  {
    var p := parts[i];
    var a := ThinkingStep(s, p);
    var b := SignatureStep(a.state, PartSignature(p));
    var c := TextStep(b.state, p, AutoSignature(env.nowMs));
    var d := GroundingStep(c.state, grounding, i == |parts| - 1, env.searchUuid);
    var e := ToolStep(d.state, p.functionCall, env.toolUuid(i), env.stringify);
    Step(e.state, a.events + b.events + c.events + d.events + e.events)
  }

  /** The step of part `i`, as a value the parts loop can be folded over. */
  function PartOf(parts: seq<GeminiPart>, grounding: seq<GroundingChunk>, env: Env): (State, nat) -> Step {
    (st: State, i: nat) => if i < |parts| then PartStep(st, parts, i, grounding, env) else Step(st, [])
  }

  /** The first `n` steps of a loop, one after another. */
  function Fold(s: State, n: nat, step: (State, nat) -> Step): Step {
    if n == 0 then Step(s, [])
    else
      var r := Fold(s, n - 1, step);
      var p := step(r.state, n - 1);
      Step(p.state, r.events + p.events)
  }

  /** The parts loop over the first `n` parts. */
  function PartsRun(s: State, parts: seq<GeminiPart>, n: nat, grounding: seq<GroundingChunk>, env: Env): Step {
    Fold(s, n, PartOf(parts, grounding, env))
  }

  lemma PartsRunNext(s: State, parts: seq<GeminiPart>, n: nat, grounding: seq<GroundingChunk>, env: Env)
    requires n < |parts|
    ensures PartsRun(s, parts, n + 1, grounding, env)
         == var r := PartsRun(s, parts, n, grounding, env);
            var p := PartStep(r.state, parts, n, grounding, env);
            Step(p.state, r.events + p.events)
  {
  }

  /** `hasThinkingContent && !hasTextContent && !hasToolUse`: the thinking-only placeholder. */
  predicate NeedsPlaceholder(s: State) {
    s.hasThinkingContent && !s.hasTextContent && !s.hasToolUse
  }

  function StopReason(s: State, finishReason: string): string {
    if s.hasToolUse then "tool_use" else FinishMapping(finishReason).0
  }

  /** The `[思考完成]` text block a thinking-only answer gets. */
  function PlaceholderBlock(s: State): Step {
    if NeedsPlaceholder(s)
    then Step(s.(index := s.index + 1),
              [BlockStart(s.index, TextStart), BlockDelta(s.index, TextDelta(ThinkingDone)), BlockStop(s.index)])
    else Step(s, [])
  }

  /** The finish reason closes the message: close, placeholder text, `message_delta`, `message_stop`. */
  function FinishStep(s: State, finishReason: string, outputTokens: int): Step {
    if finishReason == "" then Step(s, [])
    else
      var c := CloseBlock(s);
      var p := PlaceholderBlock(c.state);
      Step(p.state,
           c.events + p.events
           + [MessageDelta(StopReason(c.state, finishReason), FinishMapping(finishReason).1, outputTokens), MessageStop])
  }

  /** One call of `convertStreamChunk`. */
  function ChunkStep(s: State, chunk: Chunk, env: Env): Step {
    var parts := PartsOf(chunk);
    var r := PartsRun(s, parts, |parts|, GroundingOf(chunk), env);
    var f := FinishStep(r.state, FinishReasonOf(chunk), OutputTokens(chunk));
    Step(f.state, r.events + f.events)
  }

  /** A whole stream: the chunks in order, each with what its call draws from outside. */
  datatype ChunkInput = ChunkInput(chunk: Chunk, env: Env)

  function Run(s: State, inputs: seq<ChunkInput>): Step {
    if inputs == [] then Step(s, [])
    else
      var r := Run(s, inputs[..|inputs| - 1]);
      var c := ChunkStep(r.state, inputs[|inputs| - 1].chunk, inputs[|inputs| - 1].env);
      Step(c.state, r.events + c.events)
  }

  // ---------------------------------------------------------------- block discipline

  datatype Kind = KText | KThinking | KToolUse | KSearch

  /** What a client tracks: the index of the next block, and the kind of the open one. */
  datatype Disc = Disc(index: nat, open: Option<Kind>)

  function KindOf(b: BlockContent): Kind {
    match b
    case TextStart => KText
    case ThinkingStart => KThinking
    case ToolUseStart(_, _) => KToolUse
    case SearchResultStart(_, _) => KSearch
  }

  /** Text deltas go in text blocks, thinking and signature deltas in thinking blocks, JSON in tool_use. */
  predicate Fits(d: Delta, k: Kind) {
    match d
    case TextDelta(_) => k == KText
    case ThinkingDelta(_) => k == KThinking
    case SignatureDelta(_) => k == KThinking
    case InputJsonDelta(_) => k == KToolUse
  }

  /**
   * One event on the client side: a block starts only when none is open and at the current
   * index, deltas and the stop name the open block, the stop is the only thing that moves the
   * index (by one), and message-level events come only between blocks.
   */
  function Apply(d: Disc, e: Event): Option<Disc> {
    match e
    case BlockStart(i, b) => if d.open.None? && i == d.index then Some(Disc(d.index, Some(KindOf(b)))) else None
    case BlockDelta(i, x) => if d.open.Some? && i == d.index && Fits(x, d.open.value) then Some(d) else None
    case BlockStop(i) => if d.open.Some? && i == d.index then Some(Disc(d.index + 1, None)) else None
    case MessageDelta(_, _, _) => if d.open.None? then Some(d) else None
    case MessageStop => if d.open.None? then Some(d) else None
  }

  /** The client's view after a sequence of events, or `None` at the first event out of place. */
  function Replay(d: Disc, es: seq<Event>): Option<Disc>
    decreases |es|
  {
    if es == [] then Some(d)
    else
      var n := Apply(d, es[0]);
      if n.None? then None else Replay(n.value, es[1..])
  }

  /** The converter's state as the client sees it: a block is open exactly when `currentType` is set. */
  function Abs(s: State): Disc {
    Disc(s.index, match s.currentType
                  case NoBlock => None
                  case TextOpen => Some(KText)
                  case ThinkingOpen => Some(KThinking))
  }

  predicate IsStop(e: Event) { e.BlockStop? }
  predicate IsSignature(e: Event) { e.BlockDelta? && e.delta.SignatureDelta? }
  predicate IsSearchStart(e: Event) { e.BlockStart? && e.block.SearchResultStart? }
  predicate IsMessageEvent(e: Event) { e.MessageDelta? || e.MessageStop? }

  function CountWhere(es: seq<Event>, p: Event -> bool): nat
    decreases |es|
  {
    if es == [] then 0 else (if p(es[0]) then 1 else 0) + CountWhere(es[1..], p)
  }

  function CountSignatures(es: seq<Event>): nat { CountWhere(es, IsSignature) }

  /** Events that start no grounding block. */
  predicate Plain(es: seq<Event>) {
    CountWhere(es, IsSearchStart) == 0
  }

  /** Events that stay inside the message: no `message_delta` and no `message_stop`. */
  predicate Quiet(es: seq<Event>) {
    CountWhere(es, IsMessageEvent) == 0
  }

  /** A signature has been sent only for thinking, and thinking followed by text is always signed. */
  predicate Inv(s: State) {
    (s.signatureSent ==> s.hasThinkingContent)
    && (s.hasThinkingContent && s.hasTextContent ==> s.signatureSent)
  }

  /**
   * A step is disciplined when the client replays its events from the old state to the new one
   * and it emits a signature exactly when it sets `signatureSent`, which it never clears.
   */
  predicate Disciplined(s: State, r: Step) {
    Replay(Abs(s), r.events) == Some(Abs(r.state))
    && CountSignatures(r.events) == (if !s.signatureSent && r.state.signatureSent then 1 else 0)
    && (s.signatureSent ==> r.state.signatureSent)
  }

  lemma {:induction false} ReplayAppend(d: Disc, a: seq<Event>, b: seq<Event>)
    ensures Replay(d, a + b) == if Replay(d, a).None? then None else Replay(Replay(d, a).value, b)
    decreases |a|
  {
    if a != [] {
      assert (a + b)[0] == a[0];
      assert (a + b)[1..] == a[1..] + b;
      if Apply(d, a[0]).Some? {
        ReplayAppend(Apply(d, a[0]).value, a[1..], b);
      }
    } else {
      assert a + b == b;
    }
  }

  lemma {:induction false} CountAppend(a: seq<Event>, b: seq<Event>, p: Event -> bool)
    ensures CountWhere(a + b, p) == CountWhere(a, p) + CountWhere(b, p)
    decreases |a|
  {
    if a != [] {
      assert (a + b)[0] == a[0];
      assert (a + b)[1..] == a[1..] + b;
      CountAppend(a[1..], b, p);
    } else {
      assert a + b == b;
    }
  }

  /** The index a client tracks moves by exactly the number of `content_block_stop` events. */
  lemma {:induction false} ReplayIndex(d: Disc, es: seq<Event>)
    requires Replay(d, es).Some?
    ensures Replay(d, es).value.index == d.index + CountWhere(es, IsStop)
    decreases |es|
  {
    if es != [] {
      ReplayIndex(Apply(d, es[0]).value, es[1..]);
    }
  }

  lemma {:induction false} Sequence(s: State, a: Step, b: Step)
    requires Disciplined(s, a) && Disciplined(a.state, b)
    ensures Disciplined(s, Step(b.state, a.events + b.events))
    ensures Quiet(a.events) && Quiet(b.events) ==> Quiet(a.events + b.events)
    ensures Plain(a.events) && Plain(b.events) ==> Plain(a.events + b.events)
  {
    CountAppend(a.events, b.events, IsSearchStart);
    ReplayAppend(Abs(s), a.events, b.events);
    CountAppend(a.events, b.events, IsSignature);
    CountAppend(a.events, b.events, IsMessageEvent);
  }

  /** One more event on a disciplined step. */
  lemma {:induction false} Emit(s: State, r: Step, e: Event, s2: State)
    requires Disciplined(s, r)
    requires Apply(Abs(r.state), e) == Some(Abs(s2))
    requires if IsSignature(e) then !r.state.signatureSent && s2.signatureSent
             else s2.signatureSent == r.state.signatureSent
    ensures Disciplined(s, Step(s2, r.events + [e]))
    ensures r.events == [] ==> Disciplined(s, Step(s2, [e]))
    ensures Quiet(r.events) && !IsMessageEvent(e) ==> Quiet(r.events + [e])
    ensures !IsMessageEvent(e) ==> Quiet([e])
    ensures Plain(r.events) && !IsSearchStart(e) ==> Plain(r.events + [e])
    ensures !IsSearchStart(e) ==> Plain([e])
  {
    assert CountWhere([e], IsSearchStart) == (if IsSearchStart(e) then 1 else 0) + CountWhere([], IsSearchStart);
    assert r.events == [] ==> r.events + [e] == [e];
    assert CountWhere([e], IsMessageEvent) == (if IsMessageEvent(e) then 1 else 0) + CountWhere([], IsMessageEvent);
    assert [e][1..] == [];
    assert Replay(Abs(r.state), [e]) == Replay(Abs(s2), []);
    assert CountWhere([e], IsSignature) == (if IsSignature(e) then 1 else 0) + CountWhere([], IsSignature);
    Sequence(s, r, Step(s2, [e]));
  }

  /** A block opened and closed at once (the grounding result), between two closed states. */
  lemma {:induction false} EmptyBlock(i: nat, b: BlockContent)
    ensures var es := [BlockStart(i, b), BlockStop(i)];
      Replay(Disc(i, None), es) == Some(Disc(i + 1, None)) && CountSignatures(es) == 0 && Quiet(es)
      && CountWhere(es, IsSearchStart) == (if b.SearchResultStart? then 1 else 0)
  {
    var es := [BlockStart(i, b), BlockStop(i)];
    var d1 := Disc(i, Some(KindOf(b)));
    assert es[1..] == [BlockStop(i)] && es[1..][1..] == [];
    assert Replay(d1, es[1..]) == Replay(Disc(i + 1, None), []);
    assert Replay(Disc(i, None), es) == Replay(d1, es[1..]);
    assert CountWhere(es[1..], IsSignature) == 0 + CountWhere([], IsSignature);
    assert CountWhere(es[1..], IsMessageEvent) == 0 + CountWhere([], IsMessageEvent);
    assert CountWhere(es[1..], IsSearchStart) == 0 + CountWhere([], IsSearchStart);
  }

  /** A block with one delta of its kind that is not a signature (the tool call). */
  lemma {:induction false} OneDeltaBlock(i: nat, b: BlockContent, x: Delta)
    requires Fits(x, KindOf(b)) && !x.SignatureDelta?
    ensures var es := [BlockStart(i, b), BlockDelta(i, x), BlockStop(i)];
      Replay(Disc(i, None), es) == Some(Disc(i + 1, None)) && CountSignatures(es) == 0 && Quiet(es)
      && CountWhere(es, IsSearchStart) == (if b.SearchResultStart? then 1 else 0)
  {
    var es := [BlockStart(i, b), BlockDelta(i, x), BlockStop(i)];
    var d1 := Disc(i, Some(KindOf(b)));
    assert es[1..] == [BlockDelta(i, x), BlockStop(i)];
    assert es[1..][1..] == [BlockStop(i)] && es[1..][1..][1..] == [];
    assert Replay(d1, es[1..][1..]) == Replay(Disc(i + 1, None), []);
    assert Replay(d1, es[1..]) == Replay(d1, es[1..][1..]);
    assert Replay(Disc(i, None), es) == Replay(d1, es[1..]);
    assert CountWhere(es[1..][1..], IsSignature) == 0 + CountWhere([], IsSignature);
    assert CountWhere(es[1..], IsSignature) == 0 + CountWhere(es[1..][1..], IsSignature);
    assert CountWhere(es[1..][1..], IsMessageEvent) == 0 + CountWhere([], IsMessageEvent);
    assert CountWhere(es[1..], IsMessageEvent) == 0 + CountWhere(es[1..][1..], IsMessageEvent);
    assert CountWhere(es[1..][1..], IsSearchStart) == 0 + CountWhere([], IsSearchStart);
    assert CountWhere(es[1..], IsSearchStart) == 0 + CountWhere(es[1..][1..], IsSearchStart);
  }

  lemma {:induction false} CloseDisciplined(s: State)
    ensures Disciplined(s, CloseBlock(s))
    ensures Quiet(CloseBlock(s).events)
    ensures Plain(CloseBlock(s).events)
  {
    if s.currentType != NoBlock {
      Emit(s, Step(s, []), BlockStop(s.index), CloseBlock(s).state);
    }
  }

  lemma {:induction false} EnterDisciplined(s: State, want: Open)
    requires want != NoBlock
    ensures Disciplined(s, EnterBlock(s, want))
    ensures Quiet(EnterBlock(s, want).events)
    ensures Plain(EnterBlock(s, want).events)
    ensures EnterBlock(s, want).state.currentType == want
  {
    if s.currentType != want {
      var c := CloseBlock(s);
      CloseDisciplined(s);
      Emit(s, c, BlockStart(c.state.index, StartOf(want)), c.state.(currentType := want));
    }
  }

  lemma {:induction false} ThinkingDisciplined(s: State, p: GeminiPart)
    ensures Disciplined(s, ThinkingStep(s, p))
    ensures Quiet(ThinkingStep(s, p).events)
    ensures ThinkingStep(s, p).state.hasToolUse == s.hasToolUse
    ensures Plain(ThinkingStep(s, p).events)
    ensures Inv(s) ==> Inv(ThinkingStep(s, p).state)
  {
    if p.thought && p.text != "" {
      if s.hasTextContent {
        var e := EnterBlock(s, TextOpen);
        EnterDisciplined(s, TextOpen);
        Emit(s, e, BlockDelta(e.state.index, TextDelta("\n" + p.text)), e.state);
      } else {
        var s1 := s.(hasThinkingContent := true);
        var e := EnterBlock(s1, ThinkingOpen);
        EnterDisciplined(s1, ThinkingOpen);
        Emit(s, e, BlockDelta(e.state.index, ThinkingDelta(p.text)),
             e.state.(hasThinkingDelta := true, thinkingText := e.state.thinkingText + p.text));
      }
    }
  }

  lemma {:induction false} FlushDisciplined(s: State)
    requires s.currentType == NoBlock
    ensures Disciplined(s, FlushPending(s))
    ensures Quiet(FlushPending(s).events)
    ensures Plain(FlushPending(s).events)
  {
    if s.pendingText != "" && TrimStart(s.pendingText) != "" {
      var cleaned := TrimStart(s.pendingText);
      var s2 := s.(currentType := TextOpen, hasTextContent := true, pendingText := "");
      Emit(s, Step(s, []), BlockStart(s.index, TextStart), s2);
      assert [] + [BlockStart(s.index, TextStart)] == [BlockStart(s.index, TextStart)];
      Emit(s, Step(s2, [BlockStart(s.index, TextStart)]), BlockDelta(s.index, TextDelta(cleaned)), s2);
    }
  }

  lemma {:induction false} PlaceholderDisciplined(s: State, e: Step)
    requires Disciplined(s, e) && Quiet(e.events) && e.state.currentType == ThinkingOpen
    requires Plain(e.events)
    ensures Disciplined(s, WithPlaceholder(e)) && Quiet(WithPlaceholder(e).events) && Plain(WithPlaceholder(e).events)
    ensures WithPlaceholder(e).state == e.state
  {
    if !e.state.hasThinkingDelta {
      Emit(s, e, BlockDelta(e.state.index, ThinkingDelta(NoContent)), e.state);
    }
  }

  lemma {:induction false} SealDisciplined(s: State, e: Step, sig: string)
    requires Disciplined(s, e) && Quiet(e.events)
    requires e.state.currentType == ThinkingOpen && !e.state.signatureSent
    requires Plain(e.events)
    ensures Disciplined(s, Seal(e, sig)) && Quiet(Seal(e, sig).events) && Plain(Seal(e, sig).events)
  {
    var i := e.state.index;
    var signed := e.state.(signatureSent := true);
    Emit(s, e, BlockDelta(i, SignatureDelta(sig)), signed);
    Emit(s, Step(signed, e.events + [BlockDelta(i, SignatureDelta(sig))]), BlockStop(i),
         signed.(index := i + 1, currentType := NoBlock));
    assert Seal(e, sig).events == e.events + [BlockDelta(i, SignatureDelta(sig))] + [BlockStop(i)];
  }

  lemma {:induction false} SignatureDisciplined(s: State, sig: string)
    ensures Disciplined(s, SignatureStep(s, sig))
    ensures Quiet(SignatureStep(s, sig).events)
    ensures SignatureStep(s, sig).state.hasToolUse == s.hasToolUse
    ensures Plain(SignatureStep(s, sig).events)
    ensures Inv(s) ==> Inv(SignatureStep(s, sig).state)
  {
    var shouldProcess := s.currentType == ThinkingOpen || s.hasThinkingContent || !s.hasTextContent;
    if sig != "" && shouldProcess && !s.signatureSent {
      var c := SignAndClose(EnterBlock(s.(hasThinkingContent := true), ThinkingOpen), sig);
      SignAndCloseDisciplined(s, sig);
      FlushDisciplined(c.state);
      Sequence(s, c, FlushPending(c.state));
    }
  }

  /** Opening (or keeping) the thinking block, then signing and closing it. */
  lemma {:induction false} SignAndCloseDisciplined(s: State, sig: string)
    requires !s.signatureSent
    ensures var c := SignAndClose(EnterBlock(s.(hasThinkingContent := true), ThinkingOpen), sig);
      && Disciplined(s, c) && Quiet(c.events) && Plain(c.events)
      && c.state.currentType == NoBlock && c.state.signatureSent && c.state.hasThinkingContent
      && c.state.hasToolUse == s.hasToolUse
  {
    var s1 := s.(hasThinkingContent := true);
    var e := EnterBlock(s1, ThinkingOpen);
    EnterDisciplined(s1, ThinkingOpen);
    PlaceholderDisciplined(s, e);
    SealDisciplined(s, WithPlaceholder(e), sig);
  }

  lemma {:induction false} AutoSignDisciplined(s: State, autoSig: string)
    ensures Disciplined(s, AutoSignStep(s, autoSig))
    ensures Quiet(AutoSignStep(s, autoSig).events)
    ensures Plain(AutoSignStep(s, autoSig).events)
  {
    if s.hasThinkingContent && !s.signatureSent {
      if s.currentType == ThinkingOpen {
        SealDisciplined(s, Step(s, []), autoSig);
      } else {
        var e := EnterBlock(s, ThinkingOpen);
        EnterDisciplined(s, ThinkingOpen);
        PlaceholderDisciplined(s, e);
        SealDisciplined(s, WithPlaceholder(e), autoSig);
      }
    }
  }

  lemma {:induction false} TextDisciplined(s: State, p: GeminiPart, autoSig: string)
    ensures Disciplined(s, TextStep(s, p, autoSig))
    ensures Quiet(TextStep(s, p, autoSig).events)
    ensures TextStep(s, p, autoSig).state.hasToolUse == s.hasToolUse
    ensures Plain(TextStep(s, p, autoSig).events)
    ensures Inv(s) ==> Inv(TextStep(s, p, autoSig).state)
  {
    if p.text != "" && !p.thought {
      var a := AutoSignStep(s, autoSig);
      AutoSignDisciplined(s, autoSig);
      var s1 := a.state.(hasTextContent := true);
      var e := EnterBlock(s1, TextOpen);
      EnterDisciplined(s1, TextOpen);
      Emit(s1, e, BlockDelta(e.state.index, TextDelta(p.text)), e.state);
      Sequence(s, a, Step(e.state, e.events + [BlockDelta(e.state.index, TextDelta(p.text))]));
      assert TextStep(s, p, autoSig).events == a.events + (e.events + [BlockDelta(e.state.index, TextDelta(p.text))]);
    }
  }

  lemma {:induction false} GroundingDisciplined(s: State, grounding: seq<GroundingChunk>, isLast: bool, searchUuid: string)
    ensures Disciplined(s, GroundingStep(s, grounding, isLast, searchUuid))
    ensures Quiet(GroundingStep(s, grounding, isLast, searchUuid).events)
    ensures GroundingStep(s, grounding, isLast, searchUuid).state.hasToolUse == s.hasToolUse
    ensures CountWhere(GroundingStep(s, grounding, isLast, searchUuid).events, IsSearchStart)
         == if grounding != [] && isLast then 1 else 0
    ensures Inv(s) ==> Inv(GroundingStep(s, grounding, isLast, searchUuid).state)
  {
    if grounding != [] && isLast {
      var c := CloseBlock(s);
      CloseDisciplined(s);
      var i := c.state.index;
      var b := SearchResultStart(SearchToolId(searchUuid), grounding);
      EmptyBlock(i, b);
      var block := [BlockStart(i, b), BlockStop(i)];
      ReplayAppend(Abs(s), c.events, block);
      CountAppend(c.events, block, IsSignature);
      CountAppend(c.events, block, IsMessageEvent);
      CountAppend(c.events, block, IsSearchStart);
    }
  }

  lemma {:induction false} ToolDisciplined(s: State, call: Option<GeminiCall>, uuid: string, stringify: Json -> string)
    ensures Disciplined(s, ToolStep(s, call, uuid, stringify))
    ensures Quiet(ToolStep(s, call, uuid, stringify).events)
    ensures ToolStep(s, call, uuid, stringify).state.hasToolUse == (s.hasToolUse || call.Some?)
    ensures Plain(ToolStep(s, call, uuid, stringify).events)
    ensures Inv(s) ==> Inv(ToolStep(s, call, uuid, stringify).state)
  {
    if call.Some? {
      var s1 := s.(hasToolUse := true);
      var c := CloseBlock(s1);
      CloseDisciplined(s1);
      var i := c.state.index;
      var b := ToolUseStart(ToolUseId(uuid), call.value.name);
      var x := InputJsonDelta(stringify(call.value.args));
      OneDeltaBlock(i, b, x);
      var block := [BlockStart(i, b), BlockDelta(i, x), BlockStop(i)];
      ReplayAppend(Abs(s1), c.events, block);
      CountAppend(c.events, block, IsSignature);
      CountAppend(c.events, block, IsMessageEvent);
      CountAppend(c.events, block, IsSearchStart);
    }
  }

  lemma {:induction false} PartDisciplined(s: State, parts: seq<GeminiPart>, i: nat, grounding: seq<GroundingChunk>, env: Env)
    requires i < |parts|
    ensures Disciplined(s, PartStep(s, parts, i, grounding, env))
    ensures Quiet(PartStep(s, parts, i, grounding, env).events)
    ensures Inv(s) ==> Inv(PartStep(s, parts, i, grounding, env).state)
    ensures CountWhere(PartStep(s, parts, i, grounding, env).events, IsSearchStart)
         == if grounding != [] && i == |parts| - 1 then 1 else 0
    ensures PartStep(s, parts, i, grounding, env).state.hasToolUse == (s.hasToolUse || parts[i].functionCall.Some?)
  {
    var p := parts[i];
    var a := ThinkingStep(s, p);
    ThinkingDisciplined(s, p);
    var b := SignatureStep(a.state, PartSignature(p));
    SignatureDisciplined(a.state, PartSignature(p));
    var c := TextStep(b.state, p, AutoSignature(env.nowMs));
    TextDisciplined(b.state, p, AutoSignature(env.nowMs));
    var d := GroundingStep(c.state, grounding, i == |parts| - 1, env.searchUuid);
    GroundingDisciplined(c.state, grounding, i == |parts| - 1, env.searchUuid);
    var e := ToolStep(d.state, p.functionCall, env.toolUuid(i), env.stringify);
    ToolDisciplined(d.state, p.functionCall, env.toolUuid(i), env.stringify);
    Sequence(s, a, b);
    var ab := Step(b.state, a.events + b.events);
    Sequence(s, ab, c);
    var abc := Step(c.state, ab.events + c.events);
    Sequence(s, abc, d);
    var abcd := Step(d.state, abc.events + d.events);
    Sequence(s, abcd, e);
    CountAppend(abcd.events, e.events, IsSearchStart);
    CountAppend(abc.events, d.events, IsSearchStart);
  }

  lemma {:induction false} FoldDisciplined(s: State, n: nat, step: (State, nat) -> Step)
    requires forall st: State, i: nat :: i < n ==> Disciplined(st, step(st, i)) && Quiet(step(st, i).events)
    requires forall st: State, i: nat :: i < n && Inv(st) ==> Inv(step(st, i).state)
    ensures Disciplined(s, Fold(s, n, step)) && Quiet(Fold(s, n, step).events)
    ensures Inv(s) ==> Inv(Fold(s, n, step).state)
  {
    if n > 0 {
      var r := Fold(s, n - 1, step);
      FoldDisciplined(s, n - 1, step);
      Sequence(s, r, step(r.state, n - 1));
    }
  }

  lemma {:induction false} PartsDisciplined(s: State, parts: seq<GeminiPart>, grounding: seq<GroundingChunk>, env: Env)
    ensures Disciplined(s, PartsRun(s, parts, |parts|, grounding, env))
    ensures Quiet(PartsRun(s, parts, |parts|, grounding, env).events)
    ensures Inv(s) ==> Inv(PartsRun(s, parts, |parts|, grounding, env).state)
  {
    var step := PartOf(parts, grounding, env);
    forall st: State, i: nat | i < |parts|
      ensures Disciplined(st, step(st, i)) && Quiet(step(st, i).events)
      ensures Inv(st) ==> Inv(step(st, i).state)
    {
      PartDisciplined(st, parts, i, grounding, env);
    }
    FoldDisciplined(s, |parts|, step);
  }

  lemma {:induction false} FinishDisciplined(s: State, finishReason: string, outputTokens: int)
    ensures Disciplined(s, FinishStep(s, finishReason, outputTokens))
    ensures Plain(FinishStep(s, finishReason, outputTokens).events)
    ensures FinishStep(s, finishReason, outputTokens).state.hasToolUse == s.hasToolUse
  {
    if finishReason != "" {
      var c := CloseBlock(s);
      var p := PlaceholderBlock(c.state);
      var body := Step(p.state, c.events + p.events);
      BodyDisciplined(s);
      var md := MessageDelta(StopReason(c.state, finishReason), FinishMapping(finishReason).1, outputTokens);
      Emit(s, body, md, p.state);
      Emit(s, Step(p.state, body.events + [md]), MessageStop, p.state);
      assert FinishStep(s, finishReason, outputTokens).events == body.events + [md] + [MessageStop];
    }
  }

  /** The close and the placeholder text block before the message events. */
  lemma {:induction false} BodyDisciplined(s: State)
    ensures var c := CloseBlock(s);
      var p := PlaceholderBlock(c.state);
      && Disciplined(s, Step(p.state, c.events + p.events))
      && Plain(c.events + p.events)
      && p.state.hasToolUse == s.hasToolUse
  {
    var c := CloseBlock(s);
    CloseDisciplined(s);
    var p := PlaceholderBlock(c.state);
    if NeedsPlaceholder(c.state) {
      OneDeltaBlock(c.state.index, TextStart, TextDelta(ThinkingDone));
    }
    Sequence(s, c, p);
  }

  lemma {:induction false} FoldSearchCount(s: State, n: nat, step: (State, nat) -> Step, m: nat, bound: nat)
    requires n <= bound
    requires forall st: State, i: nat :: i < bound ==> CountWhere(step(st, i).events, IsSearchStart) == (if i == m then 1 else 0)
    ensures CountWhere(Fold(s, n, step).events, IsSearchStart) == if m < n then 1 else 0
  {
    if n > 0 {
      var r := Fold(s, n - 1, step);
      FoldSearchCount(s, n - 1, step, m, bound);
      CountAppend(r.events, step(r.state, n - 1).events, IsSearchStart);
    }
  }

  lemma {:induction false} FoldToolFlag(s: State, n: nat, step: (State, nat) -> Step, called: nat -> bool)
    requires forall st: State, i: nat :: i < n ==> step(st, i).state.hasToolUse == (st.hasToolUse || called(i))
    ensures Fold(s, n, step).state.hasToolUse == (s.hasToolUse || exists i :: 0 <= i < n && called(i))
  {
    if n > 0 {
      FoldToolFlag(s, n - 1, step, called);
      if called(n - 1) {
        assert exists i :: 0 <= i < n && called(i);
      }
    }
  }

  lemma PartOfSearch(parts: seq<GeminiPart>, grounding: seq<GroundingChunk>, env: Env, m: nat)
    requires m == if grounding != [] && parts != [] then |parts| - 1 else |parts|
    ensures forall st: State, i: nat :: i < |parts| ==>
      CountWhere(PartOf(parts, grounding, env)(st, i).events, IsSearchStart) == (if i == m then 1 else 0)
  {
    forall st: State, i: nat | i < |parts|
      ensures CountWhere(PartOf(parts, grounding, env)(st, i).events, IsSearchStart) == (if i == m then 1 else 0)
    {
      PartDisciplined(st, parts, i, grounding, env);
    }
  }

  lemma PartOfToolFlag(parts: seq<GeminiPart>, grounding: seq<GroundingChunk>, env: Env, called: nat -> bool)
    requires forall i: nat :: called(i) == (i < |parts| && parts[i].functionCall.Some?)
    ensures forall st: State, i: nat :: i < |parts| ==>
      PartOf(parts, grounding, env)(st, i).state.hasToolUse == (st.hasToolUse || called(i))
  {
    forall st: State, i: nat | i < |parts|
      ensures PartOf(parts, grounding, env)(st, i).state.hasToolUse == (st.hasToolUse || called(i))
    {
      PartDisciplined(st, parts, i, grounding, env);
    }
  }

  lemma {:induction false} PartsSearchCount(s: State, parts: seq<GeminiPart>, grounding: seq<GroundingChunk>, env: Env)
    ensures CountWhere(PartsRun(s, parts, |parts|, grounding, env).events, IsSearchStart)
         == if parts != [] && grounding != [] then 1 else 0
  {
    var m := if grounding != [] && parts != [] then |parts| - 1 else |parts|;
    PartOfSearch(parts, grounding, env, m);
    FoldSearchCount(s, |parts|, PartOf(parts, grounding, env), m, |parts|);
  }

  lemma {:induction false} PartsToolFlag(s: State, parts: seq<GeminiPart>, grounding: seq<GroundingChunk>, env: Env)
    ensures PartsRun(s, parts, |parts|, grounding, env).state.hasToolUse
         == (s.hasToolUse || exists i :: 0 <= i < |parts| && parts[i].functionCall.Some?)
  {
    var called := (i: nat) => i < |parts| && parts[i].functionCall.Some?;
    PartOfToolFlag(parts, grounding, env, called);
    FoldToolFlag(s, |parts|, PartOf(parts, grounding, env), called);
    assert (exists i :: 0 <= i < |parts| && called(i)) == (exists i :: 0 <= i < |parts| && parts[i].functionCall.Some?);
  }

  /**
   * Grounding results are emitted once per chunk that has both parts and grounding chunks, and
   * none of them before the last part is processed.
   */
  lemma {:induction false} GroundingOnce(s: State, chunk: Chunk, env: Env)
    ensures var parts := PartsOf(chunk);
      && CountWhere(ChunkStep(s, chunk, env).events, IsSearchStart)
         == (if parts != [] && GroundingOf(chunk) != [] then 1 else 0)
  {
    var parts := PartsOf(chunk);
    PartsSearchCount(s, parts, GroundingOf(chunk), env);
    var r := PartsRun(s, parts, |parts|, GroundingOf(chunk), env);
    FinishDisciplined(r.state, FinishReasonOf(chunk), OutputTokens(chunk));
    CountAppend(r.events, FinishStep(r.state, FinishReasonOf(chunk), OutputTokens(chunk)).events, IsSearchStart);
  }

  /** `hasToolUse` is set exactly by a chunk that holds a function call, and never cleared. */
  lemma {:induction false} ToolUseFlag(s: State, chunk: Chunk, env: Env)
    ensures var parts := PartsOf(chunk);
      ChunkStep(s, chunk, env).state.hasToolUse
      == (s.hasToolUse || exists i :: 0 <= i < |parts| && parts[i].functionCall.Some?)
  {
    var parts := PartsOf(chunk);
    PartsToolFlag(s, parts, GroundingOf(chunk), env);
    var r := PartsRun(s, parts, |parts|, GroundingOf(chunk), env);
    FinishDisciplined(r.state, FinishReasonOf(chunk), OutputTokens(chunk));
  }

  /**
   * How a call that saw a finish reason ends: no block is left open, and the events end with
   * the `[思考完成]` block exactly when thinking was the only content, then one `message_delta`
   * (stop reason `tool_use` whenever a tool was used, otherwise the mapped finish reason) and
   * `message_stop`; everything before that tail is block traffic that leaves every block closed.
   */
  predicate EndsMessage(s: State, r: Step, reason: string, outputTokens: int) {
    var s' := r.state;
    var k := |r.events| - (if NeedsPlaceholder(s') then 5 else 2);
    && s'.currentType == NoBlock
    && (NeedsPlaceholder(s') ==> s'.index >= 1)
    && 0 <= k
    && r.events[k..]
       == (if NeedsPlaceholder(s')
           then [BlockStart(s'.index - 1, TextStart), BlockDelta(s'.index - 1, TextDelta(ThinkingDone)), BlockStop(s'.index - 1)]
           else [])
          + [MessageDelta(if s'.hasToolUse then "tool_use" else FinishMapping(reason).0, FinishMapping(reason).1, outputTokens),
             MessageStop]
    && Quiet(r.events[..k])
    && Replay(Abs(s), r.events[..k]) == Some(Disc(if NeedsPlaceholder(s') then s'.index - 1 else s'.index, None))
  }

  /** The finish step appended to any disciplined, quiet run `r` of the parts ends the message. */
  lemma {:induction false} FinishAfter(s: State, r: Step, reason: string, outputTokens: int)
    requires reason != ""
    requires Disciplined(s, r) && Quiet(r.events)
    ensures var f := FinishStep(r.state, reason, outputTokens);
      && EndsMessage(s, Step(f.state, r.events + f.events), reason, outputTokens)
      && f.state.hasToolUse == r.state.hasToolUse
  {
    var c := CloseBlock(r.state);
    CloseDisciplined(r.state);
    Sequence(s, r, c);
    var p := PlaceholderBlock(c.state);
    var tail := p.events + [MessageDelta(StopReason(c.state, reason), FinishMapping(reason).1, outputTokens), MessageStop];
    var es := r.events + FinishStep(r.state, reason, outputTokens).events;
    assert es == (r.events + c.events) + tail;
    assert |tail| == if NeedsPlaceholder(c.state) then 5 else 2;
    var k := |r.events + c.events|;
    assert es[..k] == r.events + c.events;
    assert es[k..] == tail;
  }

  /** Every chunk with a finish reason ends the message. */
  lemma {:induction false} FinishRules(s: State, chunk: Chunk, env: Env)
    requires FinishReasonOf(chunk) != ""
    ensures EndsMessage(s, ChunkStep(s, chunk, env), FinishReasonOf(chunk), OutputTokens(chunk))
  {
    var parts := PartsOf(chunk);
    var r := PartsRun(s, parts, |parts|, GroundingOf(chunk), env);
    PartsDisciplined(s, parts, GroundingOf(chunk), env);
    var f := FinishStep(r.state, FinishReasonOf(chunk), OutputTokens(chunk));
    FinishAfter(s, r, FinishReasonOf(chunk), OutputTokens(chunk));
    assert ChunkStep(s, chunk, env) == Step(f.state, r.events + f.events);
  }

  /**
   * Block discipline of one call: a client replays the events from the old state to the new one
   * (at most one block open, every event at the open block's index, deltas of the block's kind,
   * a block open afterwards exactly when `currentType` is set), the index grows by the number of
   * stops, a signature is emitted exactly when `signatureSent` turns true (so never twice), `Inv`
   * is kept, and a chunk without a finish reason emits no message-level events.
   */
  lemma {:induction false} ChunkDiscipline(s: State, chunk: Chunk, env: Env)
    ensures var r := ChunkStep(s, chunk, env);
      && Replay(Abs(s), r.events) == Some(Abs(r.state))
      && r.state.index == s.index + CountWhere(r.events, IsStop)
      && CountSignatures(r.events) == (if !s.signatureSent && r.state.signatureSent then 1 else 0)
      && (s.signatureSent ==> r.state.signatureSent)
      && (Inv(s) ==> Inv(r.state))
      && (FinishReasonOf(chunk) == "" ==> Quiet(r.events))
  {
    var parts := PartsOf(chunk);
    var r := PartsRun(s, parts, |parts|, GroundingOf(chunk), env);
    PartsDisciplined(s, parts, GroundingOf(chunk), env);
    FinishDisciplined(r.state, FinishReasonOf(chunk), OutputTokens(chunk));
    Sequence(s, r, FinishStep(r.state, FinishReasonOf(chunk), OutputTokens(chunk)));
    ReplayIndex(Abs(s), ChunkStep(s, chunk, env).events);
  }

  lemma {:induction false} RunDisciplined(s: State, inputs: seq<ChunkInput>)
    ensures Disciplined(s, Run(s, inputs))
    ensures Inv(s) ==> Inv(Run(s, inputs).state)
    decreases |inputs|
  {
    if inputs != [] {
      var r := Run(s, inputs[..|inputs| - 1]);
      RunDisciplined(s, inputs[..|inputs| - 1]);
      var last := inputs[|inputs| - 1];
      ChunkDiscipline(r.state, last.chunk, last.env);
      Sequence(s, r, ChunkStep(r.state, last.chunk, last.env));
    }
  }

  /**
   * A whole stream from the default state: the client's replay never fails and ends where the
   * converter's state says, at most one `signature_delta` is ever emitted, and `Inv` holds.
   */
  lemma {:induction false} StreamDiscipline(inputs: seq<ChunkInput>)
    ensures var r := Run(Initial, inputs);
      && Replay(Abs(Initial), r.events) == Some(Abs(r.state))
      && CountSignatures(r.events) <= 1
      && Inv(r.state)
  {
    RunDisciplined(Initial, inputs);
  }

  // ---------------------------------------------------------------- the mutable state

  class StreamState {
    var index: nat
    var currentType: Open
    var hasToolUse: bool
    var pendingText: string
    var hasTextContent: bool
    var hasThinkingContent: bool
    var hasThinkingDelta: bool
    var thinkingText: string
    var signatureSent: bool

    function Snapshot(): State
      reads this
    {
      State(index, currentType, hasToolUse, pendingText, hasTextContent, hasThinkingContent,
            hasThinkingDelta, thinkingText, signatureSent)
    }

    /** The default `streamState` of a new stream. */
    constructor ()
      ensures Snapshot() == Initial
    {
      index := 0;
      currentType := NoBlock;
      hasToolUse := false;
      pendingText := "";
      hasTextContent := false;
      hasThinkingContent := false;
      hasThinkingDelta := false;
      thinkingText := "";
      signatureSent := false;
    }

    method Close() returns (events: seq<Event>)
      modifies this
      ensures Snapshot() == CloseBlock(old(Snapshot())).state
      ensures events == CloseBlock(old(Snapshot())).events
    {
      events := [];
      if currentType != NoBlock {
        events := [BlockStop(index)];
        index := index + 1;
        currentType := NoBlock;
      }
    }

    method Enter(want: Open) returns (events: seq<Event>)
      requires want != NoBlock
      modifies this
      ensures Snapshot() == EnterBlock(old(Snapshot()), want).state
      ensures events == EnterBlock(old(Snapshot()), want).events
    {
      events := [];
      if currentType != want {
        events := Close();
        currentType := want;
        events := events + [BlockStart(index, StartOf(want))];
      }
    }

    method ExplicitThinking(p: GeminiPart) returns (events: seq<Event>)
      modifies this
      ensures Snapshot() == ThinkingStep(old(Snapshot()), p).state
      ensures events == ThinkingStep(old(Snapshot()), p).events
    {
      events := [];
      if p.thought && p.text != "" {
        if hasTextContent {
          events := Enter(TextOpen);
          events := events + [BlockDelta(index, TextDelta("\n" + p.text))];
        } else {
          hasThinkingContent := true;
          events := Enter(ThinkingOpen);
          hasThinkingDelta := true;
          thinkingText := thinkingText + p.text;
          events := events + [BlockDelta(index, ThinkingDelta(p.text))];
        }
      }
    }

    method Flush() returns (events: seq<Event>)
      modifies this
      ensures Snapshot() == FlushPending(old(Snapshot())).state
      ensures events == FlushPending(old(Snapshot())).events
    {
      events := [];
      var pending := pendingText;
      if pending != "" {
        var cleaned := TrimStart(pending);
        if cleaned != "" {
          currentType := TextOpen;
          hasTextContent := true;
          events := [BlockStart(index, TextStart), BlockDelta(index, TextDelta(cleaned))];
        }
        pendingText := "";
      }
    }

    method Signature(sig: string) returns (events: seq<Event>)
      modifies this
      ensures Snapshot() == SignatureStep(old(Snapshot()), sig).state
      ensures events == SignatureStep(old(Snapshot()), sig).events
    {
      events := [];
      var shouldProcess := currentType == ThinkingOpen || hasThinkingContent || !hasTextContent;
      if sig != "" && shouldProcess && !signatureSent {
        hasThinkingContent := true;
        events := Enter(ThinkingOpen);
        ghost var e := Step(Snapshot(), events);
        var sealed := SignAndCloseThinking(sig);
        SignAndCloseSplit(e, sig);
        events := events + sealed;
        var flushed := Flush();
        events := events + flushed;
      }
    }

    /** The placeholder when no thinking text was sent, the signature, and the block's stop. */
    method SignAndCloseThinking(sig: string) returns (events: seq<Event>)
      modifies this
      ensures Snapshot() == SignAndClose(Step(old(Snapshot()), []), sig).state
      ensures events == SignAndClose(Step(old(Snapshot()), []), sig).events
    {
      events := [];
      if !hasThinkingDelta {
        events := [BlockDelta(index, ThinkingDelta(NoContent))];
      }
      events := events + [BlockDelta(index, SignatureDelta(sig))];
      signatureSent := true;
      events := events + [BlockStop(index)];
      index := index + 1;
      currentType := NoBlock;
    }

    /** The automatic signature before the first text, when thinking is still unsigned. */
    method AutoSign(autoSig: string) returns (events: seq<Event>)
      modifies this
      ensures Snapshot() == AutoSignStep(old(Snapshot()), autoSig).state
      ensures events == AutoSignStep(old(Snapshot()), autoSig).events
    {
      events := [];
      if hasThinkingContent && !signatureSent {
        if currentType != ThinkingOpen {
          events := Enter(ThinkingOpen);
          if !hasThinkingDelta {
            events := events + [BlockDelta(index, ThinkingDelta(NoContent))];
          }
        }
        events := events + [BlockDelta(index, SignatureDelta(autoSig))];
        signatureSent := true;
        events := events + [BlockStop(index)];
        index := index + 1;
        currentType := NoBlock;
      }
    }

    method Text(p: GeminiPart, autoSig: string) returns (events: seq<Event>)
      modifies this
      ensures Snapshot() == TextStep(old(Snapshot()), p, autoSig).state
      ensures events == TextStep(old(Snapshot()), p, autoSig).events
    {
      events := [];
      if p.text != "" && !p.thought {
        events := AutoSign(autoSig);
        hasTextContent := true;
        var entered := Enter(TextOpen);
        events := events + entered + [BlockDelta(index, TextDelta(p.text))];
      }
    }

    method Grounding(grounding: seq<GroundingChunk>, isLast: bool, searchUuid: string) returns (events: seq<Event>)
      modifies this
      ensures Snapshot() == GroundingStep(old(Snapshot()), grounding, isLast, searchUuid).state
      ensures events == GroundingStep(old(Snapshot()), grounding, isLast, searchUuid).events
    {
      events := [];
      if grounding != [] && isLast {
        events := Close();
        events := events + [BlockStart(index, SearchResultStart(SearchToolId(searchUuid), grounding)), BlockStop(index)];
        index := index + 1;
      }
    }

    method Tool(call: Option<GeminiCall>, uuid: string, stringify: Json -> string) returns (events: seq<Event>)
      modifies this
      ensures Snapshot() == ToolStep(old(Snapshot()), call, uuid, stringify).state
      ensures events == ToolStep(old(Snapshot()), call, uuid, stringify).events
    {
      events := [];
      if call.Some? {
        hasToolUse := true;
        events := Close();
        events := events + [BlockStart(index, ToolUseStart(ToolUseId(uuid), call.value.name)),
                            BlockDelta(index, InputJsonDelta(stringify(call.value.args))),
                            BlockStop(index)];
        index := index + 1;
      }
    }

    method Part(parts: seq<GeminiPart>, i: nat, grounding: seq<GroundingChunk>, env: Env) returns (events: seq<Event>)
      requires i < |parts|
      modifies this
      ensures Snapshot() == PartStep(old(Snapshot()), parts, i, grounding, env).state
      ensures events == PartStep(old(Snapshot()), parts, i, grounding, env).events
    {
      var p := parts[i];
      var a := ExplicitThinking(p);
      var b := Signature(PartSignature(p));
      var c := Text(p, AutoSignature(env.nowMs));
      var d := Grounding(grounding, i == |parts| - 1, env.searchUuid);
      var e := Tool(p.functionCall, env.toolUuid(i), env.stringify);
      events := a + b + c + d + e;
    }

    method Finish(finishReason: string, outputTokens: int) returns (events: seq<Event>)
      modifies this
      ensures Snapshot() == FinishStep(old(Snapshot()), finishReason, outputTokens).state
      ensures events == FinishStep(old(Snapshot()), finishReason, outputTokens).events
    {
      events := [];
      if finishReason != "" {
        events := Close();
        if hasThinkingContent && !hasTextContent && !hasToolUse {
          events := events + [BlockStart(index, TextStart), BlockDelta(index, TextDelta(ThinkingDone)), BlockStop(index)];
          index := index + 1;
        }
        var stopReason := FinishMapping(finishReason).0;
        if hasToolUse {
          stopReason := "tool_use";
        }
        events := events + [MessageDelta(stopReason, FinishMapping(finishReason).1, outputTokens), MessageStop];
      }
    }

    /** The `for (const part of parts)` loop. */
    method Parts(parts: seq<GeminiPart>, grounding: seq<GroundingChunk>, env: Env) returns (events: seq<Event>)
      modifies this
      ensures Snapshot() == PartsRun(old(Snapshot()), parts, |parts|, grounding, env).state
      ensures events == PartsRun(old(Snapshot()), parts, |parts|, grounding, env).events
    {
      ghost var s0 := Snapshot();
      events := [];
      var i := 0;
      while i < |parts|
        invariant 0 <= i <= |parts|
        invariant Snapshot() == PartsRun(s0, parts, i, grounding, env).state
        invariant events == PartsRun(s0, parts, i, grounding, env).events
      {
        PartsRunNext(s0, parts, i, grounding, env);
        var es := Part(parts, i, grounding, env);
        events := events + es;
        i := i + 1;
      }
    }

    /** `convertStreamChunk(chunk, this)`: the events of one chunk, in order. */
    method ConvertStreamChunk(chunk: Chunk, env: Env) returns (events: seq<Event>)
      modifies this
      ensures Snapshot() == ChunkStep(old(Snapshot()), chunk, env).state
      ensures events == ChunkStep(old(Snapshot()), chunk, env).events
    {
      events := Parts(PartsOf(chunk), GroundingOf(chunk), env);
      var fin := Finish(FinishReasonOf(chunk), OutputTokens(chunk));
      events := events + fin;
    }
  }
}
