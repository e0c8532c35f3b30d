/**
 * Claude Messages request -> Gemini `generateContent` request.
 *
 * The message loop is imperative (it pushes parts, merges into the last turn) and is a method
 * proved equal to `Contents`, the specification function the rest of the conversion uses.
 * Empty strings stand for absent optional strings wherever the code only tests truthiness.
 */
module Request {
  import opened Wire
  import Schema

  // ---------------------------------------------------------------- Claude side

  datatype Block =
    | TextBlock(text: string)
    | ImageBlock(mediaType: string, data: string)
    | DocumentBlock(mediaType: string, data: string)
    /** `thinking`, and the three spellings of its signature (`""` when absent). */
    | ThinkingBlock(thinking: string, signature: string, thought_signature: string, thoughtSignature: string)
    | ToolUseBlock(id: string, name: string, input: Json)
    | ToolResultBlock(toolUseId: string, content: Json)
    /** Any other block type; it produces no part. */
    | OtherBlock(kind: string)

  /** `msg.content`: a string, an array of blocks, or anything else (which yields no parts). */
  datatype Content = StringContent(s: string) | BlockContent(blocks: seq<Block>) | OtherContent

  datatype Message = Message(role: string, content: Content)

  // ---------------------------------------------------------------- Gemini side

  datatype Part =
    | TextPart(text: string)
    /** `{text, thought: true, thoughtSignature}`: a replayed thinking block. */
    | ThoughtPart(text: string, thoughtSignature: string)
    | InlineData(mimeType: string, data: string)
    | FunctionCall(name: string, args: Json, thoughtSignature: string)
    /** `{functionResponse: {name, response: {result}}}` */
    | FunctionResponse(name: string, result: Json)

  /** One entry of `contents`: a role (`user` or `model`) and its parts. */
  datatype Turn = Turn(role: string, parts: seq<Part>)

  // ---------------------------------------------------------------- signatures

  /** `block.signature || block.thought_signature || block.thoughtSignature` */
  function BlockSignature(b: Block): string
    requires b.ThinkingBlock?
  {
    if b.signature != "" then b.signature
    else if b.thought_signature != "" then b.thought_signature
    else b.thoughtSignature
  }

  predicate SignedThinking(b: Block) {
    b.ThinkingBlock? && BlockSignature(b) != ""
  }

  /** The first scan: the signature of the first thinking block that has one, else `""`. */
  function MessageSignature(bs: seq<Block>): (sig: string)
    ensures sig != "" <==> exists i :: 0 <= i < |bs| && SignedThinking(bs[i])
  {
    if bs == [] then ""
    else if SignedThinking(bs[0]) then BlockSignature(bs[0])
    else
      var rest := MessageSignature(bs[1..]);
      assert forall i :: 1 <= i < |bs| ==> bs[i] == bs[1..][i - 1];
      rest
  }

  /** The signature is the one of the first signed thinking block. */
  lemma {:induction false} MessageSignatureAt(bs: seq<Block>, i: nat)
    requires i < |bs| && SignedThinking(bs[i])
    requires forall j :: 0 <= j < i ==> !SignedThinking(bs[j])
    ensures MessageSignature(bs) == BlockSignature(bs[i])
  {
    if i > 0 {
      assert forall j :: 0 <= j < i - 1 ==> bs[1..][j] == bs[j + 1];
      MessageSignatureAt(bs[1..], i - 1);
    }
  }

  /**
   * The placeholder for a function call without a message signature: the base64 of
   * `placeholder_sig_<id or 'unknown'>_<milliseconds>`.
   */
  function PlaceholderSignature(id: string, nowMs: int): (sig: string)
    ensures sig != ""
  {
    EncodeBase64("placeholder_sig_" + (if id != "" then id else "unknown") + "_" + IntToString(nowMs))
  }

  // ---------------------------------------------------------------- tool-name lookup

  /** The position of the first `tool_use` block with the given id. */
  function FirstToolUse(bs: seq<Block>, id: string): (r: Option<nat>)
    ensures r.Some? ==> r.value < |bs| && bs[r.value].ToolUseBlock? && bs[r.value].id == id
  {
    if bs == [] then None
    else if bs[0].ToolUseBlock? && bs[0].id == id then Some(0)
    else match FirstToolUse(bs[1..], id)
      case None => None
      case Some(k) => Some(k + 1)
  }

  /** No `tool_use` with the id comes before the one found, and none at all when none is found. */
  lemma {:induction false} FirstToolUseFirst(bs: seq<Block>, id: string)
    ensures var r := FirstToolUse(bs, id);
      && (r.Some? ==> forall j :: 0 <= j < r.value ==> !(bs[j].ToolUseBlock? && bs[j].id == id))
      && (r.None? ==> forall j :: 0 <= j < |bs| ==> !(bs[j].ToolUseBlock? && bs[j].id == id))
  {
    if bs != [] && !(bs[0].ToolUseBlock? && bs[0].id == id) {
      FirstToolUseFirst(bs[1..], id);
      assert forall j :: 1 <= j < |bs| ==> bs[j] == bs[1..][j - 1];
    }
  }

  /** Message `m` is an assistant message with a block array holding a `tool_use` with `id`. */
  predicate Declares(m: Message, id: string) {
    m.role == "assistant" && m.content.BlockContent? && FirstToolUse(m.content.blocks, id).Some?
  }

  function DeclaredName(m: Message, id: string): string
    requires Declares(m, id)
  {
    m.content.blocks[FirstToolUse(m.content.blocks, id).value].name
  }

  /** The backwards scan over `messages[..n]`. */
  function FindToolNameIn(messages: seq<Message>, id: string, n: nat): string
    requires n <= |messages|
  {
    if n == 0 then "unknown_tool"
    else if Declares(messages[n - 1], id) then DeclaredName(messages[n - 1], id)
    else FindToolNameIn(messages, id, n - 1)
  }

  /**
   * `_findToolNameForId`: the name on the first matching `tool_use` of the last assistant
   * message that has one, else `'unknown_tool'`.
   */
  function FindToolNameForId(messages: seq<Message>, id: string): string {
    FindToolNameIn(messages, id, |messages|)
  }

  /** The backwards scan finds the last declaring message among the first `n`, else `'unknown_tool'`. */
  lemma {:induction false} FindToolNameInLast(messages: seq<Message>, id: string, n: nat)
    requires n <= |messages|
    ensures var name := FindToolNameIn(messages, id, n);
      && ((exists i :: 0 <= i < n && Declares(messages[i], id)) ==>
          exists i :: 0 <= i < n && Declares(messages[i], id) && name == DeclaredName(messages[i], id)
            && forall k :: i < k < n ==> !Declares(messages[k], id))
      && ((forall i :: 0 <= i < n ==> !Declares(messages[i], id)) ==> name == "unknown_tool")
  {
    if n > 0 && !Declares(messages[n - 1], id) {
      FindToolNameInLast(messages, id, n - 1);
    }
  }

  /** The name for a tool result: from the last assistant message declaring the id, else `'unknown_tool'`. */
  lemma ToolNameLookup(messages: seq<Message>, id: string)
    ensures var name := FindToolNameForId(messages, id);
      && ((exists i :: 0 <= i < |messages| && Declares(messages[i], id)) ==>
          exists i :: 0 <= i < |messages| && Declares(messages[i], id) && name == DeclaredName(messages[i], id)
            && forall k :: i < k < |messages| ==> !Declares(messages[k], id))
      && ((forall i :: 0 <= i < |messages| ==> !Declares(messages[i], id)) ==> name == "unknown_tool")
  {
    FindToolNameInLast(messages, id, |messages|);
  }

  // ---------------------------------------------------------------- message conversion, specified

  /** The part one block becomes, given the message signature `sig`. */
  function BlockPart(b: Block, sig: string, messages: seq<Message>, nowMs: int): seq<Part> {
    match b
    case TextBlock(t) => [TextPart(t)]
    case ImageBlock(mt, d) => [InlineData(mt, d)]
    case DocumentBlock(mt, d) => [InlineData(mt, d)]
    case ThinkingBlock(t, _, _, _) =>
      if BlockSignature(b) != "" then [ThoughtPart(t, BlockSignature(b))]
      else if sig != "" then [ThoughtPart(t, sig)]
      else [TextPart(t)]
    case ToolUseBlock(id, name, input) =>
      [FunctionCall(name, input, if sig != "" then sig else PlaceholderSignature(id, nowMs))]
    case ToolResultBlock(tid, content) => [FunctionResponse(FindToolNameForId(messages, tid), content)]
    case OtherBlock(_) => []
  }

  /** The second scan over the blocks, in order. */
  function BlockParts(bs: seq<Block>, sig: string, messages: seq<Message>, nowMs: int): seq<Part>
  {
    if bs == [] then []
    else BlockParts(bs[..|bs| - 1], sig, messages, nowMs) + BlockPart(bs[|bs| - 1], sig, messages, nowMs)
  }

  /** The parts of one message, before merging. */
  function MessageParts(m: Message, messages: seq<Message>, nowMs: int): seq<Part> {
    match m.content
    case StringContent(s) => [TextPart(s)]
    case BlockContent(bs) => BlockParts(bs, MessageSignature(bs), messages, nowMs)
    case OtherContent => []
  }

  function MappedRole(role: string): (r: string)
    ensures r == "model" || r == "user"
    ensures r == "model" <==> role == "assistant"
  {
    if role == "assistant" then "model" else "user"
  }

  /** Appending one message's parts: into the last turn when the role repeats, else as a new turn. */
  function Merge(contents: seq<Turn>, role: string, parts: seq<Part>): seq<Turn> {
    if |contents| > 0 && contents[|contents| - 1].role == role then
      contents[..|contents| - 1] + [Turn(role, contents[|contents| - 1].parts + parts)]
    else
      contents + [Turn(role, if parts == [] then [TextPart("")] else parts)]
  }

  /** One message as a turn of its own, before merging. */
  function MessageTurn(m: Message, messages: seq<Message>, nowMs: int): Turn {
    Turn(MappedRole(m.role), MessageParts(m, messages, nowMs))
  }

  /** The first `k` messages as unmerged turns, one per message. */
  function Unmerged(messages: seq<Message>, k: nat, nowMs: int): seq<Turn>
    requires k <= |messages|
  {
    if k == 0 then [] else Unmerged(messages, k - 1, nowMs) + [MessageTurn(messages[k - 1], messages, nowMs)]
  }

  /** Merging turns from the left, each one into or after the last. */
  function MergeTurns(ts: seq<Turn>): seq<Turn> {
    if ts == [] then [] else Merge(MergeTurns(ts[..|ts| - 1]), ts[|ts| - 1].role, ts[|ts| - 1].parts)
  }

  function Contents(messages: seq<Message>, nowMs: int): seq<Turn> {
    MergeTurns(Unmerged(messages, |messages|, nowMs))
  }

  lemma MergeTurnsAppend(ts: seq<Turn>, t: Turn)
    ensures MergeTurns(ts + [t]) == Merge(MergeTurns(ts), t.role, t.parts)
  {
    assert (ts + [t])[..|ts|] == ts;
  }

  /** The contents after one more message: its parts merged into those of the messages before. */
  lemma MergeNext(messages: seq<Message>, k: nat, nowMs: int)
    requires k < |messages|
    ensures MergeTurns(Unmerged(messages, k + 1, nowMs)) ==
      Merge(MergeTurns(Unmerged(messages, k, nowMs)), MappedRole(messages[k].role), MessageParts(messages[k], messages, nowMs))
  {
    MergeTurnsAppend(Unmerged(messages, k, nowMs), MessageTurn(messages[k], messages, nowMs));
  }

  // ---------------------------------------------------------------- message conversion, the loop

  /** The first scan over a message's blocks: it stops at the first signed thinking block. */
  method ScanSignature(blocks: seq<Block>) returns (sig: string)
    ensures sig == MessageSignature(blocks)
  {
    sig := "";
    var i := 0;
    while i < |blocks| && sig == ""
      invariant 0 <= i <= |blocks|
      invariant sig == "" ==> forall j :: 0 <= j < i ==> !SignedThinking(blocks[j])
      invariant sig != "" ==> sig == MessageSignature(blocks)
    {
      if SignedThinking(blocks[i]) {
        sig := BlockSignature(blocks[i]);
        MessageSignatureAt(blocks, i);
      }
      i := i + 1;
    }
  }

  /** The second scan: one part per block of a known type, in order. */
  method ScanParts(blocks: seq<Block>, sig: string, messages: seq<Message>, nowMs: int)
    returns (parts: seq<Part>)
    ensures parts == BlockParts(blocks, sig, messages, nowMs)
  {
    parts := [];
    var i := 0;
    while i < |blocks|
      invariant 0 <= i <= |blocks|
      invariant parts == BlockParts(blocks[..i], sig, messages, nowMs)
    {
      assert blocks[..i + 1][..i] == blocks[..i];
      parts := parts + BlockPart(blocks[i], sig, messages, nowMs);
      i := i + 1;
    }
    assert blocks[..|blocks|] == blocks;
  }

  /** The parts of one message: its string, or the two scans over its blocks. */
  method ScanMessage(msg: Message, messages: seq<Message>, nowMs: int) returns (parts: seq<Part>)
    ensures parts == MessageParts(msg, messages, nowMs)
  {
    parts := [];
    match msg.content {
      case StringContent(s) =>
        parts := [TextPart(s)];
      case BlockContent(blocks) =>
        var sig := ScanSignature(blocks);
        parts := ScanParts(blocks, sig, messages, nowMs);
      case OtherContent =>
    }
  }

  /** `_convertMessages`: the parts of each message, then the role mapping and the merge. */
  method ConvertMessages(messages: seq<Message>, nowMs: int) returns (contents: seq<Turn>)
    ensures contents == Contents(messages, nowMs)
  {
    contents := [];
    var k := 0;
    while k < |messages|
      invariant 0 <= k <= |messages|
      invariant contents == MergeTurns(Unmerged(messages, k, nowMs))
    {
      var parts := ScanMessage(messages[k], messages, nowMs);
      var role := MappedRole(messages[k].role);
      MergeNext(messages, k, nowMs);
      contents := MergeInto(contents, role, parts);
      k := k + 1;
    }
  }

  /** One merge step: into the last turn when the role repeats, else a new turn (never empty). */
  method MergeInto(contents: seq<Turn>, role: string, parts: seq<Part>) returns (r: seq<Turn>)
    ensures r == Merge(contents, role, parts)
  {
    if |contents| > 0 && contents[|contents| - 1].role == role {
      r := contents[..|contents| - 1] + [Turn(role, contents[|contents| - 1].parts + parts)];
    } else {
      var added := parts;
      if added == [] {
        added := [TextPart("")];
      }
      r := contents + [Turn(role, added)];
    }
  }

  // ---------------------------------------------------------------- properties of the contents

  /** Roles alternate, every turn has a part, and the roles are Gemini's two. */
  predicate WellFormedContents(c: seq<Turn>) {
    && (forall i :: 0 <= i < |c| ==> |c[i].parts| > 0 && (c[i].role == "user" || c[i].role == "model"))
    && (forall i :: 0 <= i < |c| - 1 ==> c[i].role != c[i + 1].role)
  }

  /** The number of maximal runs of consecutive turns with the same role. */
  function Runs(ts: seq<Turn>): nat {
    if ts == [] then 0
    else if |ts| > 1 && ts[|ts| - 1].role == ts[|ts| - 2].role then Runs(ts[..|ts| - 1])
    else Runs(ts[..|ts| - 1]) + 1
  }

  /** The unmerged turns are the messages, in order, with their roles mapped. */
  lemma {:induction false} UnmergedAt(messages: seq<Message>, k: nat, nowMs: int)
    requires k <= |messages|
    ensures |Unmerged(messages, k, nowMs)| == k
    ensures forall i :: 0 <= i < k ==> Unmerged(messages, k, nowMs)[i] == MessageTurn(messages[i], messages, nowMs)
  {
    if k > 0 {
      UnmergedAt(messages, k - 1, nowMs);
    }
  }

  /** One merge keeps the contents well formed: it grows the last turn or adds one of the other role. */
  lemma {:induction false} MergeShape(c: seq<Turn>, role: string, parts: seq<Part>)
    requires WellFormedContents(c) && (role == "user" || role == "model")
    ensures WellFormedContents(Merge(c, role, parts))
    ensures |Merge(c, role, parts)| == |c| + (if |c| > 0 && c[|c| - 1].role == role then 0 else 1)
    ensures |Merge(c, role, parts)| > 0 && Merge(c, role, parts)[|Merge(c, role, parts)| - 1].role == role
  {
    var c' := Merge(c, role, parts);
    if |c| > 0 && c[|c| - 1].role == role {
      assert forall i :: 0 <= i < |c| - 1 ==> c'[i] == c[i];
    } else {
      assert forall i :: 0 <= i < |c| ==> c'[i] == c[i];
    }
  }

  /**
   * Merging turns with Gemini's roles gives well-formed contents with one turn per run of
   * same-role turns, the last of the last turn's role.
   */
  lemma {:induction false} MergeTurnsShape(ts: seq<Turn>)
    requires forall i :: 0 <= i < |ts| ==> ts[i].role == "user" || ts[i].role == "model"
    ensures WellFormedContents(MergeTurns(ts))
    ensures |MergeTurns(ts)| == Runs(ts)
    ensures ts != [] ==> |MergeTurns(ts)| > 0 && MergeTurns(ts)[|MergeTurns(ts)| - 1].role == ts[|ts| - 1].role
  {
    if ts != [] {
      var init := ts[..|ts| - 1];
      MergeTurnsShape(init);
      MergeShape(MergeTurns(init), ts[|ts| - 1].role, ts[|ts| - 1].parts);
    }
  }

  /**
   * The converted contents are well formed, hold one turn per run of consecutive messages
   * with the same mapped role, and the last turn has the role of the last message.
   */
  lemma ContentsShape(messages: seq<Message>, nowMs: int)
    ensures WellFormedContents(Contents(messages, nowMs))
    ensures |Contents(messages, nowMs)| == Runs(Unmerged(messages, |messages|, nowMs))
    ensures messages != [] ==>
      && |Contents(messages, nowMs)| > 0
      && Contents(messages, nowMs)[|Contents(messages, nowMs)| - 1].role == MappedRole(messages[|messages| - 1].role)
  {
    UnmergedAt(messages, |messages|, nowMs);
    MergeTurnsShape(Unmerged(messages, |messages|, nowMs));
  }

  /** All parts of all turns, in order. */
  function AllParts(c: seq<Turn>): seq<Part> {
    if c == [] then [] else AllParts(c[..|c| - 1]) + c[|c| - 1].parts
  }

  lemma AllPartsAppend(c: seq<Turn>, t: Turn)
    ensures AllParts(c + [t]) == AllParts(c) + t.parts
  {
    assert (c + [t])[..|c|] == c;
  }

  lemma Assoc(a: seq<Part>, b: seq<Part>, c: seq<Part>)
    ensures a + (b + c) == (a + b) + c
  {
  }

  /** Merging into a last turn of the same role extends the flattened parts by the new ones. */
  lemma AllPartsGrow(c: seq<Turn>, role: string, parts: seq<Part>)
    requires |c| > 0 && c[|c| - 1].role == role
    ensures AllParts(Merge(c, role, parts)) == AllParts(c) + parts
  {
    var init := c[..|c| - 1];
    var last := c[|c| - 1];
    assert Merge(c, role, parts) == init + [Turn(role, last.parts + parts)];
    AllPartsAppend(init, Turn(role, last.parts + parts));
    Assoc(AllParts(init), last.parts, parts);
  }

  /** What one merge adds to the flattened parts: the message's parts, or the filler part. */
  lemma AllPartsMerge(c: seq<Turn>, role: string, parts: seq<Part>)
    ensures AllParts(Merge(c, role, parts)) ==
      AllParts(c) + (if !(|c| > 0 && c[|c| - 1].role == role) && parts == [] then [TextPart("")] else parts)
  {
    if |c| > 0 && c[|c| - 1].role == role {
      AllPartsGrow(c, role, parts);
    } else {
      AllPartsAppend(c, Turn(role, if parts == [] then [TextPart("")] else parts));
    }
  }

  /** Merging never reorders, drops or duplicates the parts of turns that have some. */
  lemma {:induction false} MergeTurnsKeepsParts(ts: seq<Turn>)
    requires forall i :: 0 <= i < |ts| ==> ts[i].parts != []
    ensures AllParts(MergeTurns(ts)) == AllParts(ts)
  {
    if ts != [] {
      MergeTurnsKeepsParts(ts[..|ts| - 1]);
      AllPartsMerge(MergeTurns(ts[..|ts| - 1]), ts[|ts| - 1].role, ts[|ts| - 1].parts);
    }
  }

  /**
   * When every message yields a part, the converted turns hold exactly the messages' parts,
   * in order.
   */
  lemma MergeKeepsParts(messages: seq<Message>, nowMs: int)
    requires forall i :: 0 <= i < |messages| ==> MessageParts(messages[i], messages, nowMs) != []
    ensures AllParts(Contents(messages, nowMs)) == AllParts(Unmerged(messages, |messages|, nowMs))
  {
    UnmergedAt(messages, |messages|, nowMs);
    MergeTurnsKeepsParts(Unmerged(messages, |messages|, nowMs));
  }

  /** Every function call carries a signature, and so does every replayed thought. */
  predicate Signed(p: Part) {
    (p.FunctionCall? ==> p.thoughtSignature != "") && (p.ThoughtPart? ==> p.thoughtSignature != "")
  }

  lemma {:induction false} BlockPartsSigned(bs: seq<Block>, sig: string, messages: seq<Message>, nowMs: int)
    ensures forall p :: p in BlockParts(bs, sig, messages, nowMs) ==> Signed(p)
  {
    if bs != [] {
      BlockPartsSigned(bs[..|bs| - 1], sig, messages, nowMs);
    }
  }

  lemma MessagePartsSigned(m: Message, messages: seq<Message>, nowMs: int)
    ensures forall p :: p in MessageParts(m, messages, nowMs) ==> Signed(p)
  {
    if m.content.BlockContent? {
      BlockPartsSigned(m.content.blocks, MessageSignature(m.content.blocks), messages, nowMs);
    }
  }

  lemma {:induction false} UnmergedSigned(messages: seq<Message>, k: nat, nowMs: int)
    requires k <= |messages|
    ensures forall p :: p in AllParts(Unmerged(messages, k, nowMs)) ==> Signed(p)
  {
    if k > 0 {
      UnmergedSigned(messages, k - 1, nowMs);
      MessagePartsSigned(messages[k - 1], messages, nowMs);
    }
  }

  /** Merging adds only the filler part, so it keeps every part signed. */
  lemma {:induction false} MergeTurnsSigned(ts: seq<Turn>)
    requires forall p :: p in AllParts(ts) ==> Signed(p)
    ensures forall p :: p in AllParts(MergeTurns(ts)) ==> Signed(p)
  {
    if ts != [] {
      MergeTurnsSigned(ts[..|ts| - 1]);
      AllPartsMerge(MergeTurns(ts[..|ts| - 1]), ts[|ts| - 1].role, ts[|ts| - 1].parts);
    }
  }

  /** The function calls of the converted contents all carry a non-empty `thoughtSignature`. */
  lemma CallsSigned(messages: seq<Message>, nowMs: int)
    ensures forall t, p :: t in Contents(messages, nowMs) && p in t.parts ==> Signed(p)
  {
    var c := Contents(messages, nowMs);
    UnmergedSigned(messages, |messages|, nowMs);
    MergeTurnsSigned(Unmerged(messages, |messages|, nowMs));
    forall t, p | t in c && p in t.parts
      ensures Signed(p)
    {
      PartInAllParts(c, t, p);
    }
  }

  lemma {:induction false} PartInAllParts(c: seq<Turn>, t: Turn, p: Part)
    requires t in c && p in t.parts
    ensures p in AllParts(c)
  {
    if c[|c| - 1] != t {
      assert t in c[..|c| - 1];
      PartInAllParts(c[..|c| - 1], t, p);
    }
  }

  /**
   * Within one message, every function call carries the message's own signature when it
   * has one, and otherwise the placeholder made from the id of its own `tool_use` block.
   */
  lemma {:induction false} CallSignatureSource(bs: seq<Block>, sig: string, messages: seq<Message>, nowMs: int)
    ensures forall p :: p in BlockParts(bs, sig, messages, nowMs) && p.FunctionCall? ==>
      if sig != "" then p.thoughtSignature == sig
      else
        exists i :: 0 <= i < |bs| && bs[i].ToolUseBlock? && p.name == bs[i].name &&
          p.thoughtSignature == PlaceholderSignature(bs[i].id, nowMs)
  {
    if bs != [] {
      var init := bs[..|bs| - 1];
      CallSignatureSource(init, sig, messages, nowMs);
      forall i | 0 <= i < |init| ensures init[i] == bs[i] { }
    }
  }

  /**
   * A tool result becomes a function response named by the backwards lookup and carrying
   * the block's content as its result.
   */
  lemma {:induction false} ToolResultSource(bs: seq<Block>, sig: string, messages: seq<Message>, nowMs: int)
    ensures forall p :: p in BlockParts(bs, sig, messages, nowMs) && p.FunctionResponse? ==>
      exists i :: 0 <= i < |bs| && bs[i].ToolResultBlock? &&
        p == FunctionResponse(FindToolNameForId(messages, bs[i].toolUseId), bs[i].content)
  {
    if bs != [] {
      var init := bs[..|bs| - 1];
      ToolResultSource(init, sig, messages, nowMs);
      forall i | 0 <= i < |init| ensures init[i] == bs[i] { }
    }
  }

  // ---------------------------------------------------------------- tools

  datatype Tool = Tool(name: string, description: Option<string>, inputSchema: Json)

  /** `tool_choice`: `type` and, for `type: 'tool'`, the tool's `name`. */
  datatype ToolChoice = ToolChoice(kind: string, name: string)

  datatype FunctionDeclaration = FunctionDeclaration(name: string, description: Option<string>, parametersJsonSchema: Option<Json>)

  datatype GeminiTool = FunctionDeclarations(decls: seq<FunctionDeclaration>) | GoogleSearch

  /** `{functionCallingConfig: {mode, allowedFunctionNames?}}` */
  datatype ToolConfig = ToolConfig(mode: string, allowedFunctionNames: Option<seq<string>>)

  /** `_convertToolDefinition`: the sanitised schema becomes `parametersJsonSchema` when there is one. */
  function ConvertToolDefinition(t: Tool): (r: Result<FunctionDeclaration>)
    ensures r.Ok? <==> (!Truthy(t.inputSchema) || Schema.Process(t.inputSchema).Ok?)
    ensures r.Ok? ==> r.value.name == t.name && r.value.description == t.description
    ensures r.Ok? ==> (r.value.parametersJsonSchema.None? <==> !Truthy(t.inputSchema))
    ensures r.Ok? && Truthy(t.inputSchema) ==>
      r.value.parametersJsonSchema == Some(Schema.Process(t.inputSchema).value)
    ensures r.Ok? && r.value.parametersJsonSchema.Some? ==>
      r.value.parametersJsonSchema.value.JObj? && Schema.Clean(r.value.parametersJsonSchema.value)
  {
    match Schema.ProcessJsonSchema(t.inputSchema)
    case Err(e) => Err(e)
    case Ok(p) => Ok(FunctionDeclaration(t.name, t.description, p))
  }

  /** The tools other than `web_search`, in order. */
  function NonSearchTools(tools: seq<Tool>): (r: seq<Tool>)
    ensures forall t :: t in r <==> t in tools && t.name != "web_search"
    ensures |r| <= |tools|
    ensures |tools| == 1 ==> r == (if tools[0].name == "web_search" then [] else tools)
  {
    if tools == [] then []
    else if tools[0].name == "web_search" then NonSearchTools(tools[1..])
    else [tools[0]] + NonSearchTools(tools[1..])
  }

  /** The filter distributes over concatenation, so it keeps order and multiplicity. */
  lemma {:induction false} NonSearchToolsAppend(a: seq<Tool>, b: seq<Tool>)
    ensures NonSearchTools(a + b) == NonSearchTools(a) + NonSearchTools(b)
    decreases |a|
  {
    if a != [] {
      assert (a + b)[1..] == a[1..] + b;
      NonSearchToolsAppend(a[1..], b);
    } else {
      assert a + b == b;
    }
  }

  function ToolNames(tools: seq<Tool>): (r: seq<string>)
    ensures |r| == |tools| && forall i :: 0 <= i < |tools| ==> r[i] == tools[i].name
  {
    if tools == [] then [] else [tools[0].name] + ToolNames(tools[1..])
  }

  function ConvertToolDefinitions(tools: seq<Tool>): (r: Result<seq<FunctionDeclaration>>)
    ensures r.Ok? ==> |r.value| == |tools|
    ensures r.Ok? ==> forall i :: 0 <= i < |tools| ==> ConvertToolDefinition(tools[i]) == Ok(r.value[i])
    ensures r.Err? ==> exists i :: 0 <= i < |tools| && ConvertToolDefinition(tools[i]).Err?
  {
    if tools == [] then Ok([])
    else match ConvertToolDefinition(tools[0])
      case Err(e) => Err(e)
      case Ok(d) =>
        match ConvertToolDefinitions(tools[1..])
        case Err(e) => Err(e)
        case Ok(ds) => Ok([d] + ds)
  }

  predicate HasWebSearch(tools: seq<Tool>) {
    exists i :: 0 <= i < |tools| && tools[i].name == "web_search"
  }

  function ChoiceConfig(choice: Option<ToolChoice>, tools: seq<Tool>): Option<ToolConfig> {
    match choice
    case None => None
    case Some(c) =>
      if c.kind == "auto" then Some(ToolConfig("auto", None))
      else if c.kind == "any" then Some(ToolConfig("any", Some(ToolNames(NonSearchTools(tools)))))
      else if c.kind == "tool" then Some(ToolConfig("any", Some([c.name])))
      else if c.kind == "none" then Some(ToolConfig("none", None))
      else None
  }

  datatype ToolsOut = ToolsOut(tools: Option<seq<GeminiTool>>, toolConfig: Option<ToolConfig>)

  /**
   * Tool and tool-choice mapping. Both exist only for a non-empty `tools` array; `web_search`
   * becomes `googleSearch`, every other tool a function declaration.
   */
  function ConvertTools(tools: Option<seq<Tool>>, choice: Option<ToolChoice>): (r: Result<ToolsOut>)
    ensures r.Ok? && (tools.None? || tools.value == []) ==> r.value == ToolsOut(None, None)
  {
    if tools.None? || tools.value == [] then Ok(ToolsOut(None, None))
    else
      var ts := tools.value;
      match ConvertToolDefinitions(NonSearchTools(ts))
      case Err(e) => Err(e)
      case Ok(decls) =>
        var group := if decls != [] then [FunctionDeclarations(decls)] else [];
        var search := if HasWebSearch(ts) then [GoogleSearch] else [];
        Ok(ToolsOut(Some(group + search), ChoiceConfig(choice, ts)))
  }

  /**
   * A non-empty `tools` array gives a non-empty Gemini tool list: the declarations of the
   * non-search tools, in order, then `googleSearch` exactly when `web_search` was asked for;
   * `tool_choice` `any` allows exactly the non-search tool names.
   */
  lemma ToolsMapping(ts: seq<Tool>, choice: Option<ToolChoice>)
    requires ts != []
    requires ConvertTools(Some(ts), choice).Ok?
    ensures var out := ConvertTools(Some(ts), choice).value;
      && out.tools.Some? && out.tools.value != []
      && (GoogleSearch in out.tools.value <==> HasWebSearch(ts))
      && (forall g :: g in out.tools.value && g.FunctionDeclarations? ==>
            |g.decls| == |NonSearchTools(ts)| &&
            forall i :: 0 <= i < |g.decls| ==> g.decls[i].name == NonSearchTools(ts)[i].name)
    ensures var out := ConvertTools(Some(ts), choice).value;
      && (choice.Some? && choice.value.kind == "auto" ==> out.toolConfig == Some(ToolConfig("auto", None)))
      && (choice.Some? && choice.value.kind == "any" ==>
            out.toolConfig == Some(ToolConfig("any", Some(ToolNames(NonSearchTools(ts))))))
      && (choice.Some? && choice.value.kind == "tool" ==>
            out.toolConfig == Some(ToolConfig("any", Some([choice.value.name]))))
      && (choice.Some? && choice.value.kind == "none" ==> out.toolConfig == Some(ToolConfig("none", None)))
      && (choice.None? || choice.value.kind !in {"auto", "any", "tool", "none"} ==> out.toolConfig.None?)
  {
    var ns := NonSearchTools(ts);
    var decls := ConvertToolDefinitions(ns).value;
    if ns == [] {
      SearchOrDeclared(ts);
    } else {
      assert decls != [];
    }
  }

  /**
   * The layout of the Gemini tool list: one declarations group first when some tool is
   * not `web_search`, one `googleSearch` entry when some tool is, and nothing else.
   */
  lemma ToolsLayout(ts: seq<Tool>, choice: Option<ToolChoice>)
    requires ts != []
    requires ConvertTools(Some(ts), choice).Ok?
    ensures var out := ConvertTools(Some(ts), choice).value;
      && out.tools.Some?
      && |out.tools.value| == (if NonSearchTools(ts) != [] then 1 else 0) + (if HasWebSearch(ts) then 1 else 0)
      && (NonSearchTools(ts) != [] ==>
            out.tools.value[0] == FunctionDeclarations(ConvertToolDefinitions(NonSearchTools(ts)).value))
      && (NonSearchTools(ts) == [] ==> out.tools.value == [GoogleSearch])
  {
    var ns := NonSearchTools(ts);
    if ns == [] {
      SearchOrDeclared(ts);
    } else {
      assert ConvertToolDefinitions(ns).value != [];
    }
  }

  /** Every tool is either `web_search` or declared, so a non-empty list loses nothing. */
  lemma SearchOrDeclared(ts: seq<Tool>)
    requires ts != [] && NonSearchTools(ts) == []
    ensures HasWebSearch(ts)
  {
    assert ts[0] in ts;
    assert ts[0] !in NonSearchTools(ts);
  }

  // ---------------------------------------------------------------- thinking

  /** `thinking` when present; `budget_tokens` is 0 when absent (both are falsy). */
  datatype Thinking = Thinking(budgetTokens: int)

  datatype ThinkingConfig = ThinkingConfig(includeThoughts: bool, thinkingLevel: Option<string>, thinkingBudget: Option<int>)

  const MaxThinkingBudget: int := 32768

  function BudgetLevel(budget: int): string {
    if budget <= 1024 then "LOW" else if budget <= 8192 then "MEDIUM" else "HIGH"
  }

  /** The thinking-config rules, for `reasoning.effort` (`""` when absent) and the target model. */
  function ThinkingConfigFor(thinking: Option<Thinking>, effort: string, targetModel: string): Option<ThinkingConfig> {
    if thinking.None? && effort == "" then None
    else if Contains(targetModel, "gemini-3") then
      if effort != "" then Some(ThinkingConfig(true, Some(AsciiUpper(effort)), None))
      else if thinking.Some? && thinking.value.budgetTokens != 0 then
        Some(ThinkingConfig(true, Some(BudgetLevel(thinking.value.budgetTokens)), None))
      else Some(ThinkingConfig(true, None, None))
    else if thinking.Some? && thinking.value.budgetTokens != 0 then
      var b := thinking.value.budgetTokens;
      Some(ThinkingConfig(true, None, Some(if b > MaxThinkingBudget then MaxThinkingBudget else b)))
    else Some(ThinkingConfig(true, None, None))
  }

  /**
   * A thinking config exists exactly when a thinking or effort directive is given, always
   * asks for thoughts, and carries a level on Gemini 3 models and a capped budget otherwise.
   */
  lemma ThinkingRules(thinking: Option<Thinking>, effort: string, targetModel: string)
    ensures var c := ThinkingConfigFor(thinking, effort, targetModel);
      && (c.Some? <==> thinking.Some? || effort != "")
      && (c.Some? ==> c.value.includeThoughts)
      && (c.Some? && Contains(targetModel, "gemini-3") ==>
            c.value.thinkingBudget.None? &&
            (effort != "" ==> c.value.thinkingLevel == Some(AsciiUpper(effort))) &&
            (effort == "" && thinking.value.budgetTokens != 0 ==>
               c.value.thinkingLevel.Some? && c.value.thinkingLevel.value in {"LOW", "MEDIUM", "HIGH"}) &&
            (effort == "" && thinking.value.budgetTokens != 0 && thinking.value.budgetTokens <= 1024 ==>
               c.value.thinkingLevel == Some("LOW")) &&
            (effort == "" && 1024 < thinking.value.budgetTokens <= 8192 ==>
               c.value.thinkingLevel == Some("MEDIUM")) &&
            (effort == "" && thinking.value.budgetTokens > 8192 ==> c.value.thinkingLevel == Some("HIGH")) &&
            (effort == "" && thinking.value.budgetTokens == 0 ==> c.value.thinkingLevel.None?))
      && (c.Some? && !Contains(targetModel, "gemini-3") ==>
            c.value.thinkingLevel.None? &&
            (c.value.thinkingBudget.Some? <==> thinking.Some? && thinking.value.budgetTokens != 0) &&
            (c.value.thinkingBudget.Some? ==>
               c.value.thinkingBudget.value <= MaxThinkingBudget &&
               c.value.thinkingBudget.value <= thinking.value.budgetTokens &&
               (thinking.value.budgetTokens <= MaxThinkingBudget ==>
                  c.value.thinkingBudget.value == thinking.value.budgetTokens) &&
               (thinking.value.budgetTokens > MaxThinkingBudget ==>
                  c.value.thinkingBudget.value == MaxThinkingBudget)))
  {
  }

  /** The level buckets are monotone in the budget. */
  lemma BudgetLevelMonotone(a: int, b: int)
    requires a <= b
    ensures BudgetLevel(a) == "HIGH" ==> BudgetLevel(b) == "HIGH"
    ensures BudgetLevel(b) == "LOW" ==> BudgetLevel(a) == "LOW"
  {
  }

  // ---------------------------------------------------------------- system prompt

  /** `system`: absent, a string, an array of text blocks, or anything else. */
  datatype System = NoSystem | SystemString(s: string) | SystemBlocks(texts: seq<string>) | SystemOther

  /** The custom system prompt: none, a plain string, or `{prompt, position}` (`""` when absent). */
  datatype PromptConfig = NoPrompt | PromptString(s: string) | PromptObject(prompt: string, position: string)

  function JoinLines(ts: seq<string>): string {
    if ts == [] then "" else if |ts| == 1 then ts[0] else ts[0] + "\n" + JoinLines(ts[1..])
  }

  function SystemText(system: System): string {
    match system
    case SystemString(s) => s
    case SystemBlocks(ts) => JoinLines(ts)
    case _ => ""
  }

  function CustomPrompt(config: PromptConfig): string {
    match config
    case PromptString(s) => s
    case PromptObject(p, _) => p
    case NoPrompt => ""
  }

  function PromptPosition(config: PromptConfig): string {
    if config.PromptObject? && config.position != "" then config.position else "append"
  }

  predicate EndsWith(s: string, p: string) {
    |p| <= |s| && s[|s| - |p|..] == p
  }

  /** The system-prompt splice: the custom prompt goes before or after the request's own. */
  function SpliceSystem(sys: string, config: PromptConfig): (r: string)
    ensures CustomPrompt(config) == "" ==> r == sys
    ensures CustomPrompt(config) != "" && sys == "" ==> r == CustomPrompt(config)
    ensures CustomPrompt(config) != "" && sys != "" && PromptPosition(config) == "prepend" ==>
      StartsWith(r, CustomPrompt(config) + "\n\n") && EndsWith(r, sys) &&
      |r| == |CustomPrompt(config)| + 2 + |sys|
    ensures CustomPrompt(config) != "" && sys != "" && PromptPosition(config) != "prepend" ==>
      StartsWith(r, sys + "\n\n") && EndsWith(r, CustomPrompt(config)) &&
      |r| == |sys| + 2 + |CustomPrompt(config)|
    ensures r == "" <==> sys == "" && CustomPrompt(config) == ""
  {
    var custom := CustomPrompt(config);
    if custom == "" then sys
    else if PromptPosition(config) == "prepend" then
      if sys != "" then
        var r := custom + "\n\n" + sys;
        assert r[..|custom + "\n\n"|] == custom + "\n\n";
        assert r[|r| - |sys|..] == sys;
        r
      else custom
    else if sys != "" then
      var r := sys + "\n\n" + custom;
      assert r[..|sys + "\n\n"|] == sys + "\n\n";
      assert r[|r| - |custom|..] == custom;
      r
    else custom
  }

  // ---------------------------------------------------------------- the whole request

  datatype ClaudeRequest = ClaudeRequest(
    messages: seq<Message>,
    system: System,
    tools: Option<seq<Tool>>,
    toolChoice: Option<ToolChoice>,
    temperature: Option<Json>,
    topP: Option<Json>,
    topK: Option<Json>,
    maxTokens: Option<Json>,
    stopSequences: Option<seq<string>>,
    thinking: Option<Thinking>,
    reasoningEffort: string)

  datatype SafetySetting = SafetySetting(category: string, threshold: string)

  const SafetySettings: seq<SafetySetting> := [
    SafetySetting("HARM_CATEGORY_HARASSMENT", "BLOCK_NONE"),
    SafetySetting("HARM_CATEGORY_HATE_SPEECH", "BLOCK_NONE"),
    SafetySetting("HARM_CATEGORY_SEXUALLY_EXPLICIT", "BLOCK_NONE"),
    SafetySetting("HARM_CATEGORY_DANGEROUS_CONTENT", "BLOCK_NONE")]

  datatype GenerationConfig = GenerationConfig(
    temperature: Option<Json>,
    topP: Option<Json>,
    topK: Option<Json>,
    maxOutputTokens: Option<Json>,
    stopSequences: Option<seq<string>>,
    thinkingConfig: Option<ThinkingConfig>)

  datatype GeminiRequest = GeminiRequest(
    contents: seq<Turn>,
    generationConfig: GenerationConfig,
    safetySettings: seq<SafetySetting>,
    tools: Option<seq<GeminiTool>>,
    toolConfig: Option<ToolConfig>,
    systemInstruction: Option<string>)

  /**
   * `convertRequest`. The clock reading `nowMs` is the one the placeholder signatures use.
   * A schema the sanitiser rejects makes the whole conversion fail.
   */
  function ConvertRequest(body: ClaudeRequest, config: PromptConfig, targetModel: string, nowMs: int)
    : (r: Result<GeminiRequest>)
    ensures r.Ok? <==> ConvertTools(body.tools, body.toolChoice).Ok?
    ensures r.Ok? ==> r.value.contents == Contents(body.messages, nowMs)
    ensures r.Ok? ==> r.value.safetySettings == SafetySettings
    ensures r.Ok? ==>
      var sys := SpliceSystem(SystemText(body.system), config);
      r.value.systemInstruction == (if sys != "" then Some(sys) else None)
    ensures r.Ok? ==>
      r.value.generationConfig.thinkingConfig == ThinkingConfigFor(body.thinking, body.reasoningEffort, targetModel)
    ensures r.Ok? ==> (r.value.generationConfig.stopSequences.Some? <==>
      body.stopSequences.Some? && body.stopSequences.value != [])
    ensures r.Ok? && r.value.generationConfig.stopSequences.Some? ==>
      r.value.generationConfig.stopSequences == body.stopSequences
    ensures r.Ok? ==> r.value.generationConfig.temperature == body.temperature
    ensures r.Ok? ==> r.value.generationConfig.topP == body.topP
    ensures r.Ok? ==> r.value.generationConfig.topK == body.topK
    ensures r.Ok? ==> r.value.generationConfig.maxOutputTokens == body.maxTokens
    ensures r.Ok? ==> (r.value.tools.Some? <==> body.tools.Some? && body.tools.value != [])
    ensures r.Ok? ==> r.value.tools == ConvertTools(body.tools, body.toolChoice).value.tools
    ensures r.Ok? ==> r.value.toolConfig == ConvertTools(body.tools, body.toolChoice).value.toolConfig
  {
    var sys := SpliceSystem(SystemText(body.system), config);
    match ConvertTools(body.tools, body.toolChoice)
    case Err(e) => Err(e)
    case Ok(tc) =>
      assert tc.tools.Some? <==> body.tools.Some? && body.tools.value != [];
      var stops := if body.stopSequences.Some? && body.stopSequences.value != [] then body.stopSequences else None;
      var gen := GenerationConfig(body.temperature, body.topP, body.topK, body.maxTokens, stops,
                                  ThinkingConfigFor(body.thinking, body.reasoningEffort, targetModel));
      Ok(GeminiRequest(Contents(body.messages, nowMs), gen, SafetySettings, tc.tools, tc.toolConfig,
                       if sys != "" then Some(sys) else None))
  }
}
