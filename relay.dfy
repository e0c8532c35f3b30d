/**
 * The direct Claude-to-Gemini relay: which Gemini model a request goes to, which custom
 * system prompt applies, the per-account model path, the retry loop over scheduled
 * accounts and the error replies.
 */
module Relay {
  import opened Wire
  import Request

  // ---------------------------------------------------------------- target model

  /** The dynamic global configuration, when it loaded. */
  datatype GlobalConfig = GlobalConfig(mapping: Option<map<string, string>>, systemPrompt: Option<Json>)

  /** `m[k]`, with `""` standing for a missing or empty entry. */
  function MapGet(m: map<string, string>, k: string): string {
    if k in m then m[k] else ""
  }

  /** `globalConfig?.geminiDirectGlobalMapping?.[model]`. */
  function GlobalMapping(global: Option<GlobalConfig>, model: string): string {
    if global.Some? && global.value.mapping.Some? then MapGet(global.value.mapping.value, model) else ""
  }

  /**
   * The target model: a `gemini-` name is used as is; any other name goes through the
   * user's mapping, then the global mapping, then the static table, then the default.
   */
  function ResolveTargetModel(model: string, userMapping: map<string, string>, global: Option<GlobalConfig>,
                              staticMapping: map<string, string>, defaultModel: string): (r: string)
    ensures StartsWith(model, "gemini-") ==> r == model
    ensures !StartsWith(model, "gemini-") ==>
      r in {MapGet(userMapping, model), GlobalMapping(global, model), MapGet(staticMapping, model), defaultModel}
    ensures !StartsWith(model, "gemini-") && r == "" ==>
      MapGet(userMapping, model) == "" && GlobalMapping(global, model) == "" &&
      MapGet(staticMapping, model) == "" && defaultModel == ""
    ensures !StartsWith(model, "gemini-") && MapGet(userMapping, model) != "" ==> r == userMapping[model]
    ensures var noUser := !StartsWith(model, "gemini-") && MapGet(userMapping, model) == "";
      noUser && GlobalMapping(global, model) != "" ==> r == GlobalMapping(global, model)
    ensures var unmapped := !StartsWith(model, "gemini-") && MapGet(userMapping, model) == "" && GlobalMapping(global, model) == "";
      && (unmapped && MapGet(staticMapping, model) != "" ==> r == staticMapping[model])
      && (unmapped && MapGet(staticMapping, model) == "" ==> r == defaultModel)
  {
    if StartsWith(model, "gemini-") then model
    else
      var u := MapGet(userMapping, model);
      var g := if u == "" then GlobalMapping(global, model) else u;
      if g != "" then g
      else if MapGet(staticMapping, model) != "" then staticMapping[model]
      else defaultModel
  }

  /** A user's own mapping entry wins: the global configuration, the static table and the default are not consulted. */
  lemma {:induction false} UserMappingWins(model: string, userMapping: map<string, string>,
                                           g1: Option<GlobalConfig>, s1: map<string, string>, d1: string,
                                           g2: Option<GlobalConfig>, s2: map<string, string>, d2: string)
    requires MapGet(userMapping, model) != ""
    ensures ResolveTargetModel(model, userMapping, g1, s1, d1) == ResolveTargetModel(model, userMapping, g2, s2, d2)
    ensures StartsWith(model, "gemini-") || ResolveTargetModel(model, userMapping, g1, s1, d1) == userMapping[model]
  {
  }

  /** Without a user entry, a global entry wins over the static table and the default. */
  lemma {:induction false} GlobalMappingWins(model: string, userMapping: map<string, string>, global: Option<GlobalConfig>,
                                             s1: map<string, string>, d1: string, s2: map<string, string>, d2: string)
    requires MapGet(userMapping, model) == "" && GlobalMapping(global, model) != ""
    ensures ResolveTargetModel(model, userMapping, global, s1, d1) == ResolveTargetModel(model, userMapping, global, s2, d2)
  {
  }

  // ---------------------------------------------------------------- system prompt

  /** What `getSystemPrompt` returns for a user who stored nothing. */
  const DefaultPromptConfig: Json := JObj([Field("prompt", JStr("")), Field("position", JStr("append"))])

  /** `getSystemPrompt(userId)`: the stored configuration, or the default object. */
  function StoredPrompt(stored: Option<Json>): (r: Json)
    ensures Truthy(r) || stored == Some(r)
  {
    if stored.Some? then stored.value else DefaultPromptConfig
  }

  /** `systemPromptConfig` after the user lookup: `null` (`None`) without a user id. */
  function UserPrompt(userId: string, stored: Option<Json>): Option<Json> {
    if userId != "" then Some(StoredPrompt(stored)) else None
  }

  /** `globalConfig?.geminiDirectGlobalSystemPrompt`, when its `prompt` is truthy. */
  function GlobalPrompt(global: Option<GlobalConfig>): (r: Option<Json>)
    ensures r.Some? ==> global.Some? && global.value.systemPrompt == r
    ensures r.Some? ==> Get(r.value, "prompt").Some? && Truthy(Get(r.value, "prompt").value)
  {
    if global.Some? && global.value.systemPrompt.Some? then
      var p := Get(global.value.systemPrompt.value, "prompt");
      if p.Some? && Truthy(p.value) then global.value.systemPrompt else None
    else None
  }

  /**
   * The prompt configuration handed to the converter, as the code computes it: without a
   * user id the global prompt (when it has text); a signed-in user's own truthy
   * configuration; and, for a signed-in user who stored nothing, the default object.
   */
  function EffectivePrompt(userId: string, stored: Option<Json>, global: Option<GlobalConfig>): (r: Option<Json>)
    ensures userId == "" ==> r == GlobalPrompt(global)
    ensures userId != "" && stored.Some? && Truthy(stored.value) ==> r == stored
    ensures userId != "" && stored.None? ==> r == Some(DefaultPromptConfig)
    ensures userId != "" && stored.Some? && !Truthy(stored.value) ==>
      r == (if GlobalPrompt(global).Some? then GlobalPrompt(global) else stored)
  {
    var u := UserPrompt(userId, stored);
    if (u.None? || !Truthy(u.value)) && GlobalPrompt(global).Some? then GlobalPrompt(global) else u
  }

  /** The same choice when a user who stored nothing counts as unconfigured. */
  function IntendedPrompt(userId: string, stored: Option<Json>, global: Option<GlobalConfig>): (r: Option<Json>)
    ensures stored.Some? && Truthy(stored.value) && userId != "" ==> r == stored
    ensures (userId == "" || stored.None? || !Truthy(stored.value)) && GlobalPrompt(global).Some? ==> r == GlobalPrompt(global)
  {
    var configured := userId != "" && stored.Some? && Truthy(stored.value);
    if !configured && GlobalPrompt(global).Some? then GlobalPrompt(global) else UserPrompt(userId, stored)
  }

  /** `String(v)` for the prompt fields; a non-string value is taken as absent. */
  function StringField(j: Json, k: string): string {
    var v := Get(j, k);
    if v.Some? && v.value.JStr? then v.value.s else ""
  }

  /** How the converter reads `systemPromptConfig`: a string, an object, or nothing. */
  function PromptConfigOf(config: Option<Json>): (r: Request.PromptConfig)
    ensures config.None? || !Truthy(config.value) ==> r == Request.NoPrompt
    ensures config.Some? && config.value.JStr? && config.value.s != "" ==> r == Request.PromptString(config.value.s)
    ensures config.Some? && (config.value.JObj? || config.value.JArr?) ==>
      r == Request.PromptObject(StringField(config.value, "prompt"), StringField(config.value, "position"))
  {
    if config.None? || !Truthy(config.value) then Request.NoPrompt
    else match config.value
      case JStr(s) => Request.PromptString(s)
      case JObj(_) => Request.PromptObject(StringField(config.value, "prompt"), StringField(config.value, "position"))
      case JArr(_) => Request.PromptObject("", "")
      case _ => Request.NoPrompt
  }

  /** The system prompt the converter would get with the corrected fallback of `IntendedPrompt`. */
  function IntendedPromptFor(userId: string, stored: Option<Json>, global: Option<GlobalConfig>): (r: Request.PromptConfig)
    ensures userId != "" && stored.Some? && stored.value.JObj? ==>
      r == Request.PromptObject(StringField(stored.value, "prompt"), StringField(stored.value, "position"))
    ensures (userId == "" || stored.None? || !Truthy(stored.value)) && GlobalPrompt(global).Some? && GlobalPrompt(global).value.JObj? ==>
      r == Request.PromptObject(StringField(GlobalPrompt(global).value, "prompt"), StringField(GlobalPrompt(global).value, "position"))
    ensures userId == "" && GlobalPrompt(global).None? ==> r == Request.NoPrompt
  {
    PromptConfigOf(IntendedPrompt(userId, stored, global))
  }

  /**
   * As written, a signed-in user who stored no prompt gets the default object back, which
   * is truthy, so the global prompt never applies to them and no custom prompt is spliced.
   */
  lemma {:induction false} GlobalPromptShadowed(userId: string, global: Option<GlobalConfig>)
    requires userId != ""
    ensures EffectivePrompt(userId, None, global) == Some(DefaultPromptConfig)
    ensures Request.CustomPrompt(PromptConfigOf(EffectivePrompt(userId, None, global))) == ""
  {
    assert Truthy(DefaultPromptConfig);
    assert StringField(DefaultPromptConfig, "prompt") == "";
  }

  /** With the fallback as intended, the same user gets the global prompt's text. */
  lemma {:induction false} IntendedPromptFallback(userId: string, global: Option<GlobalConfig>)
    requires GlobalPrompt(global).Some? && GlobalPrompt(global).value.JObj?
    requires Get(GlobalPrompt(global).value, "prompt").value.JStr?
    ensures Request.CustomPrompt(IntendedPromptFor(userId, None, global)) == Get(GlobalPrompt(global).value, "prompt").value.s
    ensures Request.CustomPrompt(IntendedPromptFor(userId, None, global)) != ""
  {
    var g := GlobalPrompt(global).value;
    assert IntendedPrompt(userId, None, global) == Some(g);
    assert Truthy(g);
  }

  // ---------------------------------------------------------------- model path

  /** The path an API-key account's URL uses: `models/` is added unless a resource prefix is present. */
  function ApiKeyModelPath(model: string): (r: string)
    ensures StartsWith(r, "models/") || StartsWith(r, "publishers/") || StartsWith(r, "projects/")
    ensures EndsWith(r, model)
    ensures StartsWith(model, "models/") || StartsWith(model, "publishers/") || StartsWith(model, "projects/") ==> r == model
  {
    if StartsWith(model, "models/") || StartsWith(model, "publishers/") || StartsWith(model, "projects/") then model
    else
      assert ("models/" + model)[..7] == "models/";
      "models/" + model
  }

  predicate EndsWith(s: string, p: string) {
    |p| <= |s| && s[|s| - |p|..] == p
  }

  /** Prefixing is idempotent. */
  lemma {:induction false} ApiKeyModelPathIdempotent(model: string)
    ensures ApiKeyModelPath(ApiKeyModelPath(model)) == ApiKeyModelPath(model)
  {
  }

  /** The model an OAuth account's Code Assist request names: a leading `models/` is dropped. */
  function OAuthModel(model: string): (r: string)
    ensures StartsWith(model, "models/") ==> "models/" + r == model
    ensures !StartsWith(model, "models/") ==> r == model
  {
    if StartsWith(model, "models/") then
      ReplaceFirstOfPrefix(model, "models/");
      ReplaceFirst(model, "models/", "")
    else model
  }

  /** The two account kinds name the same model: prefixing the OAuth name gives the API-key path. */
  lemma {:induction false} ModelPathsAgree(model: string)
    requires !StartsWith(OAuthModel(model), "publishers/") && !StartsWith(OAuthModel(model), "projects/")
    requires !StartsWith(OAuthModel(model), "models/")
    ensures ApiKeyModelPath(OAuthModel(model)) == "models/" + OAuthModel(model)
    ensures StartsWith(model, "models/") ==> ApiKeyModelPath(model) == ApiKeyModelPath(OAuthModel(model))
  {
  }

  // ---------------------------------------------------------------- retry loop

  /** A thrown error as the loop sees it: its message, `error.response?.status` (`0` when absent) and the upstream `error.message`. */
  datatype JsError = JsError(message: string, status: int, upstreamMessage: string)

  /** What `selectAccountForApiKey` did on one attempt. */
  datatype Selection = Selected(accountId: string, accountType: string) | SelectionFailed(message: string)

  /** What the account lookup, the upstream call and the response handling did on one attempt. */
  datatype Attempt = Succeeded | Failed(error: JsError)

  /** A `markAccountRateLimited` call. */
  datatype Mark = Mark(accountId: string, accountType: string)

  datatype Outcome = Served(attempt: nat) | Unavailable(message: string) | Exhausted(error: JsError)

  datatype RetryRun = RetryRun(outcome: Outcome, marks: seq<Mark>)

  const MaxRetries: nat := 3
  const NoGeminiAccounts := "No available Gemini accounts"

  predicate Overloaded(e: JsError) {
    e.status == 429 || e.status == 503
  }

  predicate Succeeds(select: nat -> Selection, call: (nat, Selection) -> Attempt, b: nat) {
    select(b).Selected? && call(b, select(b)).Succeeded?
  }

  /** The scheduler is told about an account that answered 429 or 503. */
  function MarksFor(sel: Selection, e: JsError): seq<Mark> {
    if sel.Selected? && sel.accountId != "" && Overloaded(e) then [Mark(sel.accountId, sel.accountType)] else []
  }

  /**
   * The loop from attempt `retries` on. A selection failure on the first attempt ends the
   * request with 503; on a later attempt the previous error is rethrown and caught, which
   * uses up an attempt without marking anything.
   */
  function RetryFrom(select: nat -> Selection, call: (nat, Selection) -> Attempt, retries: nat, lastError: Option<JsError>): RetryRun
    requires retries <= MaxRetries
    requires retries > 0 ==> lastError.Some?
    decreases MaxRetries - retries
  {
    if retries == MaxRetries then RetryRun(Exhausted(lastError.value), [])
    else match select(retries)
      case SelectionFailed(msg) =>
        if retries > 0 then RetryFrom(select, call, retries + 1, lastError)
        else RetryRun(Unavailable(if msg != "" then msg else NoGeminiAccounts), [])
      case Selected(_, _) =>
        match call(retries, select(retries))
        case Succeeded => RetryRun(Served(retries), [])
        case Failed(e) =>
          var rest := RetryFrom(select, call, retries + 1, Some(e));
          RetryRun(rest.outcome, MarksFor(select(retries), e) + rest.marks)
  }

  /** The retry loop of the relay. */
  method RelayWithRetries(select: nat -> Selection, call: (nat, Selection) -> Attempt) returns (outcome: Outcome, marks: seq<Mark>)
    ensures RetryRun(outcome, marks) == RetryFrom(select, call, 0, None)
  {
    var retries: nat := 0;
    var lastError: Option<JsError> := None;
    marks := [];
    while retries < MaxRetries
      invariant retries <= MaxRetries
      invariant retries > 0 ==> lastError.Some?
      invariant RetryFrom(select, call, 0, None) ==
        RetryRun(RetryFrom(select, call, retries, lastError).outcome, marks + RetryFrom(select, call, retries, lastError).marks)
      decreases MaxRetries - retries
    {
      var selection := select(retries);
      if selection.SelectionFailed? {
        if retries > 0 && lastError.Some? {
          retries := retries + 1;
        } else {
          outcome := Unavailable(if selection.message != "" then selection.message else NoGeminiAccounts);
          return;
        }
      } else {
        var attempt := call(retries, selection);
        if attempt.Succeeded? {
          outcome := Served(retries);
          return;
        }
        ghost var rest := RetryFrom(select, call, retries + 1, Some(attempt.error));
        assert RetryFrom(select, call, retries, lastError) == RetryRun(rest.outcome, MarksFor(selection, attempt.error) + rest.marks);
        marks := marks + MarksFor(selection, attempt.error);
        lastError := Some(attempt.error);
        retries := retries + 1;
      }
    }
    outcome := Exhausted(lastError.value);
  }

  /** A request is served by the first attempt that succeeds, and never after three attempts. */
  lemma {:induction false} ServedRule(select: nat -> Selection, call: (nat, Selection) -> Attempt, retries: nat, lastError: Option<JsError>)
    requires retries <= MaxRetries && (retries > 0 ==> lastError.Some?)
    ensures var o := RetryFrom(select, call, retries, lastError).outcome;
      o.Served? ==> retries <= o.attempt < MaxRetries && Succeeds(select, call, o.attempt) &&
                    forall b :: retries <= b < o.attempt ==> !Succeeds(select, call, b)
    decreases MaxRetries - retries
  {
    if retries < MaxRetries {
      if select(retries).SelectionFailed? {
        if retries > 0 { ServedRule(select, call, retries + 1, lastError); }
      } else if call(retries, select(retries)).Failed? {
        ServedRule(select, call, retries + 1, Some(call(retries, select(retries)).error));
      }
    }
  }

  /** The 503 reply happens only when the very first selection fails, with that error's message or the default. */
  lemma {:induction false} UnavailableRule(select: nat -> Selection, call: (nat, Selection) -> Attempt, retries: nat, lastError: Option<JsError>)
    requires retries <= MaxRetries && (retries > 0 ==> lastError.Some?)
    ensures var o := RetryFrom(select, call, retries, lastError).outcome;
      o.Unavailable? <==> retries == 0 && select(0).SelectionFailed?
    ensures var o := RetryFrom(select, call, retries, lastError).outcome;
      o.Unavailable? ==> o.message != "" && (select(0).message != "" ==> o.message == select(0).message)
    decreases MaxRetries - retries
  {
    if retries < MaxRetries {
      if select(retries).SelectionFailed? {
        if retries > 0 { UnavailableRule(select, call, retries + 1, lastError); }
      } else if call(retries, select(retries)).Failed? {
        UnavailableRule(select, call, retries + 1, Some(call(retries, select(retries)).error));
      }
    }
  }

  /** Attempt `b` is the last whose selection found an account; every later selection failed. */
  predicate LastSelected(select: nat -> Selection, b: nat) {
    b < MaxRetries && select(b).Selected? && forall c :: b < c < MaxRetries ==> select(c).SelectionFailed?
  }

  /** The loop got to attempt `b`: every attempt from `retries` before it failed without ending the request. */
  predicate Reached(select: nat -> Selection, call: (nat, Selection) -> Attempt, retries: nat, b: nat) {
    forall c :: retries <= c < b ==>
      (select(c).Selected? && call(c, select(c)).Failed?) || (c > 0 && select(c).SelectionFailed?)
  }

  /**
   * Giving up: no attempt succeeded, and the final error is the error of the last attempt
   * whose selection found an account, even when later selections failed and rethrew it;
   * when no selection from `retries` on found one, it is the error carried in.
   */
  lemma {:induction false} ExhaustedRule(select: nat -> Selection, call: (nat, Selection) -> Attempt, retries: nat, lastError: Option<JsError>)
    requires retries <= MaxRetries && (retries > 0 ==> lastError.Some?)
    ensures var o := RetryFrom(select, call, retries, lastError).outcome;
      o.Exhausted? ==> forall b :: retries <= b < MaxRetries ==> !Succeeds(select, call, b)
    ensures var o := RetryFrom(select, call, retries, lastError).outcome;
      o.Exhausted? && retries < MaxRetries && select(MaxRetries - 1).Selected? ==>
        call(MaxRetries - 1, select(MaxRetries - 1)) == Failed(o.error)
    ensures var o := RetryFrom(select, call, retries, lastError).outcome;
      o.Exhausted? ==> forall b :: retries <= b && LastSelected(select, b) ==>
        call(b, select(b)) == Failed(o.error)
    ensures var o := RetryFrom(select, call, retries, lastError).outcome;
      o.Exhausted? && (forall c :: retries <= c < MaxRetries ==> select(c).SelectionFailed?) ==>
        lastError == Some(o.error)
    ensures var o := RetryFrom(select, call, retries, lastError).outcome;
      o.Exhausted? && retries == MaxRetries ==> lastError == Some(o.error)
    decreases MaxRetries - retries
  {
    if retries < MaxRetries {
      if select(retries).SelectionFailed? {
        if retries > 0 { ExhaustedRule(select, call, retries + 1, lastError); }
      } else if call(retries, select(retries)).Failed? {
        ExhaustedRule(select, call, retries + 1, Some(call(retries, select(retries)).error));
      }
    }
  }

  /** Every rate-limit mark names an account that was selected and answered 429 or 503; there are at most three. */
  lemma {:induction false} MarkRule(select: nat -> Selection, call: (nat, Selection) -> Attempt, retries: nat, lastError: Option<JsError>)
    requires retries <= MaxRetries && (retries > 0 ==> lastError.Some?)
    ensures var ms := RetryFrom(select, call, retries, lastError).marks;
      |ms| <= MaxRetries - retries &&
      forall m :: m in ms ==> (m.accountId != "" &&
        exists b :: retries <= b < MaxRetries && select(b) == Selected(m.accountId, m.accountType) &&
                    call(b, select(b)).Failed? && Overloaded(call(b, select(b)).error))
    ensures var ms := RetryFrom(select, call, retries, lastError).marks;
      forall b :: retries <= b < MaxRetries && Reached(select, call, retries, b) &&
                  select(b).Selected? && select(b).accountId != "" &&
                  call(b, select(b)).Failed? && Overloaded(call(b, select(b)).error) ==>
        Mark(select(b).accountId, select(b).accountType) in ms
    decreases MaxRetries - retries
  {
    if retries < MaxRetries {
      if select(retries).SelectionFailed? {
        if retries > 0 { MarkRule(select, call, retries + 1, lastError); }
      } else if call(retries, select(retries)).Failed? {
        MarkRule(select, call, retries + 1, Some(call(retries, select(retries)).error));
      }
    }
  }

  // ---------------------------------------------------------------- replies

  /** `res.headersSent` and `res.writableEnded`. */
  datatype ResponseState = ResponseState(headersSent: bool, writableEnded: bool)

  datatype Reply =
    | Delivered
    | JsonError(status: int, errorType: string, message: string)
    | StreamError(errorType: string, message: string)
    | NoReply

  /** `_handleFinalError`: a JSON error before the headers, an SSE error on an open stream, else nothing. */
  function FinalError(e: JsError, res: ResponseState, stream: bool): (r: Reply)
    ensures r.JsonError? <==> !res.headersSent
    ensures r.StreamError? <==> res.headersSent && stream && !res.writableEnded
    ensures r.JsonError? ==> r.errorType == "api_error" && r.status != 0 && r.message != ""
    ensures r.JsonError? ==> (e.status != 0 ==> r.status == e.status) && (e.status == 0 ==> r.status == 500)
    ensures r.JsonError? ==> r.message in {e.upstreamMessage, e.message, "Internal Server Error"}
    ensures r.JsonError? && e.upstreamMessage != "" ==> r.message == e.upstreamMessage
    ensures r.StreamError? ==> r.errorType == "api_error" && r.message != "" &&
                               (e.message != "" ==> r.message == e.message)
  {
    if res.headersSent then
      if stream && !res.writableEnded then
        StreamError("api_error", if e.message != "" then e.message else "Request failed after retries")
      else NoReply
    else
      JsonError(if e.status != 0 then e.status else 500, "api_error",
                if e.upstreamMessage != "" then e.upstreamMessage
                else if e.message != "" then e.message else "Internal Server Error")
  }

  /** What the client gets for a run of the loop. */
  function ReplyOf(o: Outcome, res: ResponseState, stream: bool): Reply {
    match o
    case Served(_) => Delivered
    case Unavailable(msg) => JsonError(503, "service_unavailable", msg)
    case Exhausted(e) => FinalError(e, res, stream)
  }

  /**
   * A failed first selection is answered with a 503 `service_unavailable` carrying the
   * selection's message or the default; no other run gets a `service_unavailable` reply,
   * since a later failed selection rethrows the last error instead.
   */
  lemma {:induction false} UnavailableReply(select: nat -> Selection, call: (nat, Selection) -> Attempt, res: ResponseState, stream: bool)
    ensures var r := ReplyOf(RetryFrom(select, call, 0, None).outcome, res, stream);
      select(0).SelectionFailed? ==>
        r == JsonError(503, "service_unavailable", if select(0).message != "" then select(0).message else NoGeminiAccounts)
    ensures var r := ReplyOf(RetryFrom(select, call, 0, None).outcome, res, stream);
      (r.JsonError? && r.errorType == "service_unavailable") <==> select(0).SelectionFailed?
  {
    UnavailableRule(select, call, 0, None);
    var o := RetryFrom(select, call, 0, None).outcome;
    if o.Exhausted? {
      assert FinalError(o.error, res, stream).JsonError? ==> FinalError(o.error, res, stream).errorType == "api_error";
    }
  }

  /** A request that was not served gets an error reply unless its headers were already sent. */
  lemma {:induction false} ErrorReplied(select: nat -> Selection, call: (nat, Selection) -> Attempt, res: ResponseState, stream: bool)
    requires !res.headersSent
    ensures var r := ReplyOf(RetryFrom(select, call, 0, None).outcome, res, stream);
      r.Delivered? || (r.JsonError? && r.message != "" && r.status != 0)
  {
    UnavailableRule(select, call, 0, None);
    var o := RetryFrom(select, call, 0, None).outcome;
    if o.Exhausted? {
      assert FinalError(o.error, res, stream).JsonError?;
    }
  }
}
