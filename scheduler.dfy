/**
 * The unified mixed scheduler: picks one account, Claude or Gemini, for a request.
 *
 * The account services, the group service and Redis are modelled as one `Store` value: the
 * account records of each kind in the order `getAllAccounts` lists them, the rate-limit,
 * overload and quota flags kept by the Claude-side services, the Console concurrency counters,
 * the session mappings with their remaining TTL, the account groups, the clock and the
 * session configuration. Each operation is specified by a function on a `Store`; the
 * `MixedScheduler` class holds the same state in fields and its methods are proved to move it
 * exactly as those functions say.
 */
module Scheduler {
  import opened Wire

  // ---------------------------------------------------------------- accounts

  datatype Kind = Gemini | GeminiApi | ClaudeOfficial | ClaudeConsole | Bedrock | Ccr

  /**
   * An account record as its service returns it. Strings stand for absent fields when empty;
   * `isActive` and `schedulable` keep the JS value (absent, boolean or string) the stores hold.
   * `priority` and `rateLimitDuration` are `parseInt` results, 0 standing for a missing,
   * unparsable or zero value; `tokenExpired` and `subscriptionExpired` are what the services'
   * expiry checks answer for the record.
   */
  datatype Account = Account(
    id: string,
    isActive: Option<Json>,
    status: string,
    accountType: string,
    schedulable: Option<Json>,
    refreshToken: string,
    tokenExpired: bool,
    subscriptionExpired: bool,
    supportedModels: seq<string>,
    priority: int,
    lastUsedAt: int,
    maxConcurrentTasks: int,
    rateLimitStatus: string,
    rateLimitedAt: Option<int>,
    rateLimitDuration: int)

  /** A pool entry: the fields selection reads after normalising priority and `lastUsedAt`. */
  datatype Candidate = Candidate(accountId: string, accountType: Kind, priority: int, lastUsedAt: int)

  /** What a session mapping holds and what selection returns. */
  datatype Mapping = Mapping(accountId: string, accountType: Kind)

  /** A stored session mapping; `data` is `None` when the stored text does not parse. */
  datatype Session = Session(data: Option<Mapping>, ttl: int)

  /** `session.stickyTtlHours` and `session.renewalThresholdMinutes`; 0 stands for unset. */
  datatype Config = Config(stickyTtlHours: int, renewalThresholdMinutes: int)

  /** The `claudeAccountId` and `geminiAccountId` bindings of an API key ("" when unbound). */
  datatype ApiKey = ApiKey(claudeAccountId: string, geminiAccountId: string)

  datatype Platform = ClaudePlatform | GeminiPlatform

  datatype Store = Store(
    pools: map<Kind, seq<Account>>,
    limited: set<(Kind, string)>,
    overloaded: set<string>,
    quotaExceeded: set<(Kind, string)>,
    concurrency: map<string, int>,
    sessions: map<string, Session>,
    groups: map<string, seq<string>>,
    now: int,
    config: Config)

  /** A selection's answer together with the store it leaves behind. */
  datatype Outcome = Outcome(result: Result<Mapping>, store: Store)

  const NoSharedAccounts := "No available accounts (neither Claude nor Gemini)"
  const NoGroupAccounts := "No available accounts in group(s)"

  function Pool(st: Store, k: Kind): seq<Account> {
    if k in st.pools then st.pools[k] else []
  }

  /** `getAccount(id)`: the first record with that id. */
  function Find(accs: seq<Account>, id: string): (r: Option<Account>)
    ensures r.Some? ==> r.value in accs && r.value.id == id
    ensures r.None? <==> forall a :: a in accs ==> a.id != id
  {
    if accs == [] then None
    else if accs[0].id == id then Some(accs[0])
    else Find(accs[1..], id)
  }

  function Concurrency(st: Store, id: string): int {
    if id in st.concurrency then st.concurrency[id] else 0
  }

  // ---------------------------------------------------------------- predicates

  /** `_isSchedulable`: only an explicit `false` or `'false'` switches scheduling off. */
  predicate IsSchedulable(v: Option<Json>)
    ensures IsSchedulable(v) <==> v != Some(JBool(false)) && v != Some(JStr("false"))
  {
    if v.None? || v == Some(JNull) then true
    else v != Some(JBool(false)) && v != Some(JStr("false"))
  }

  /** `_isActive`: only `true` or `'true'` counts as active. */
  predicate IsActive(v: Option<Json>)
    ensures IsActive(v) ==> v.Some? && (v.value.JBool? || v.value.JStr?)
  {
    v == Some(JBool(true)) || v == Some(JStr("true"))
  }

  /** `parseInt(priority) || 50`. */
  function PriorityOf(raw: int): (r: int)
    ensures r != 0
    ensures r == 50 <==> raw == 0 || raw == 50
    ensures raw != 0 ==> r == raw
  {
    if raw == 0 then 50 else raw
  }

  function CandidateOf(a: Account, k: Kind): Candidate {
    Candidate(a.id, k, PriorityOf(a.priority), a.lastUsedAt)
  }

  /** A model name with its first `models/` removed. */
  function Strip(model: string): string {
    ReplaceFirst(model, "models/", "")
  }

  function AnySupported(list: seq<string>, normalized: string): bool {
    if list == [] then false
    else Strip(list[0]) == normalized || AnySupported(list[1..], normalized)
  }

  /** The allow-list test: no requested model or an empty list lets every account through. */
  function ModelSupported(model: string, list: seq<string>): bool {
    model == "" || list == [] || AnySupported(list, Strip(model))
  }

  lemma {:induction false} AnySupportedExists(list: seq<string>, normalized: string)
    ensures AnySupported(list, normalized) <==> exists i :: 0 <= i < |list| && Strip(list[i]) == normalized
  {
    if list != [] {
      AnySupportedExists(list[1..], normalized);
      if AnySupported(list[1..], normalized) {
        var i :| 0 <= i < |list[1..]| && Strip(list[1..][i]) == normalized;
        assert Strip(list[i + 1]) == normalized;
      }
      if exists i :: 0 <= i < |list| && Strip(list[i]) == normalized {
        var i :| 0 <= i < |list| && Strip(list[i]) == normalized;
        if i > 0 {
          assert Strip(list[1..][i - 1]) == normalized;
        }
      }
    }
  }

  /** Gemini allow-lists compare names with the first `models/` stripped on both sides. */
  lemma ModelSupportedRule(model: string, list: seq<string>)
    ensures ModelSupported(model, list)
        <==> model == "" || list == [] || exists i :: 0 <= i < |list| && Strip(list[i]) == Strip(model)
  {
    AnySupportedExists(list, Strip(model));
  }

  /** `parseInt(rateLimitDuration) || 60`, in minutes. */
  function DurationOf(raw: int): int {
    if raw == 0 then 60 else raw
  }

  /** The Gemini rate-limit window of one record at time `now` (milliseconds). */
  predicate InWindow(a: Account, now: int) {
    a.rateLimitStatus == "limited" && a.rateLimitedAt.Some?
    && now < a.rateLimitedAt.value + DurationOf(a.rateLimitDuration) * 60000
  }

  /** `_isGeminiAccountRateLimited`: the API-key pool for `gemini-api`, the OAuth pool otherwise. */
  predicate GeminiLimited(st: Store, id: string, k: Kind) {
    var found := Find(Pool(st, if k == GeminiApi then GeminiApi else Gemini), id);
    found.Some? && InWindow(found.value, st.now)
  }

  /** `_isAccountAvailable`: the per-kind checks on a mapped or group account. */
  predicate Available(st: Store, id: string, k: Kind) {
    var found := Find(Pool(st, k), id);
    found.Some? &&
    var a := found.value;
    match k
    case Gemini =>
      IsActive(a.isActive) && a.status != "error" && IsSchedulable(a.schedulable)
      && !GeminiLimited(st, id, Gemini)
    case GeminiApi =>
      IsActive(a.isActive) && a.status != "error" && IsSchedulable(a.schedulable)
      && !GeminiLimited(st, id, GeminiApi)
    case ClaudeOfficial =>
      a.isActive == Some(JStr("true")) && a.status != "error" && a.status != "temp_error"
      && IsSchedulable(a.schedulable)
      && (ClaudeOfficial, id) !in st.limited && id !in st.overloaded
    case ClaudeConsole =>
      IsActive(a.isActive) && a.status != "error" && IsSchedulable(a.schedulable)
      && !a.subscriptionExpired
      && (ClaudeConsole, id) !in st.limited && (ClaudeConsole, id) !in st.quotaExceeded
      && (a.maxConcurrentTasks > 0 ==> Concurrency(st, id) < a.maxConcurrentTasks)
    case Bedrock =>
      a.isActive == Some(JBool(true)) && IsSchedulable(a.schedulable)
    case Ccr =>
      a.isActive == Some(JBool(true)) && a.status == "active" && IsSchedulable(a.schedulable)
      && !a.subscriptionExpired
      && (Ccr, id) !in st.limited && (Ccr, id) !in st.quotaExceeded
  }

  // ---------------------------------------------------------------- candidate pools

  /** One scan of the shared pool; Console accounts are scanned once without and once with a concurrency cap. */
  datatype Scan = GeminiScan | GeminiApiScan | OfficialScan | ConsoleScan | ConsoleCappedScan | BedrockScan | CcrScan

  function KindOf(scan: Scan): Kind {
    match scan
    case GeminiScan => Gemini
    case GeminiApiScan => GeminiApi
    case OfficialScan => ClaudeOfficial
    case ConsoleScan => ClaudeConsole
    case ConsoleCappedScan => ClaudeConsole
    case BedrockScan => Bedrock
    case CcrScan => Ccr
  }

  predicate SharedOrUnset(a: Account) {
    a.accountType == "shared" || a.accountType == ""
  }

  predicate ConsoleBase(st: Store, a: Account) {
    a.isActive == Some(JBool(true)) && a.status == "active" && a.accountType == "shared"
    && IsSchedulable(a.schedulable) && !a.subscriptionExpired
    && (ClaudeConsole, a.id) !in st.limited && (ClaudeConsole, a.id) !in st.quotaExceeded
  }

  /** Whether one record of the scanned pool joins the shared candidates. */
  predicate Eligible(st: Store, a: Account, scan: Scan, model: string) {
    match scan
    case GeminiScan =>
      IsActive(a.isActive) && a.status != "error" && SharedOrUnset(a) && IsSchedulable(a.schedulable)
      && !(a.tokenExpired && a.refreshToken == "")
      && ModelSupported(model, a.supportedModels)
      && !GeminiLimited(st, a.id, Gemini)
    case GeminiApiScan =>
      IsActive(a.isActive) && a.status != "error" && SharedOrUnset(a) && IsSchedulable(a.schedulable)
      && ModelSupported(model, a.supportedModels)
      && !GeminiLimited(st, a.id, GeminiApi)
    case OfficialScan =>
      a.isActive == Some(JStr("true"))
      && a.status != "error" && a.status != "blocked" && a.status != "temp_error"
      && SharedOrUnset(a) && IsSchedulable(a.schedulable)
      && (ClaudeOfficial, a.id) !in st.limited && a.id !in st.overloaded
    case ConsoleScan =>
      ConsoleBase(st, a) && a.maxConcurrentTasks <= 0
    case ConsoleCappedScan =>
      ConsoleBase(st, a) && a.maxConcurrentTasks > 0 && Concurrency(st, a.id) < a.maxConcurrentTasks
    case BedrockScan =>
      a.isActive == Some(JBool(true)) && a.accountType == "shared" && IsSchedulable(a.schedulable)
    case CcrScan =>
      a.isActive == Some(JBool(true)) && a.status == "active" && a.accountType == "shared"
      && IsSchedulable(a.schedulable) && !a.subscriptionExpired
      && (Ccr, a.id) !in st.limited && (Ccr, a.id) !in st.quotaExceeded
  }

  /** The candidates one scan pushes, in pool order. */
  function Candidates(st: Store, accs: seq<Account>, scan: Scan, model: string): seq<Candidate> {
    if accs == [] then []
    else
      var last := accs[|accs| - 1];
      Candidates(st, accs[..|accs| - 1], scan, model)
      + (if Eligible(st, last, scan, model) then [CandidateOf(last, KindOf(scan))] else [])
  }

  function GeminiCandidates(st: Store, model: string, allowApi: bool): seq<Candidate> {
    Candidates(st, Pool(st, Gemini), GeminiScan, model)
    + (if allowApi then Candidates(st, Pool(st, GeminiApi), GeminiApiScan, model) else [])
  }

  function ClaudeCandidates(st: Store): seq<Candidate> {
    Candidates(st, Pool(st, ClaudeOfficial), OfficialScan, "")
    + Candidates(st, Pool(st, ClaudeConsole), ConsoleScan, "")
    + Candidates(st, Pool(st, ClaudeConsole), ConsoleCappedScan, "")
    + Candidates(st, Pool(st, Bedrock), BedrockScan, "")
    + Candidates(st, Pool(st, Ccr), CcrScan, "")
  }

  /** `_getAllAvailableMixedAccounts`: Gemini accounts first, then Claude accounts. */
  function SharedCandidates(st: Store, model: string, allowApi: bool): seq<Candidate> {
    GeminiCandidates(st, model, allowApi) + ClaudeCandidates(st)
  }

  /** A candidate is pushed exactly when some record of the scanned pool is eligible for it. */
  lemma {:induction false} CandidatesMembers(st: Store, accs: seq<Account>, scan: Scan, model: string, c: Candidate)
    ensures c in Candidates(st, accs, scan, model)
        <==> exists a :: a in accs && Eligible(st, a, scan, model) && c == CandidateOf(a, KindOf(scan))
  {
    if accs != [] {
      var init := accs[..|accs| - 1];
      var last := accs[|accs| - 1];
      CandidatesMembers(st, init, scan, model, c);
      assert accs == init + [last];
      if exists a :: a in accs && Eligible(st, a, scan, model) && c == CandidateOf(a, KindOf(scan)) {
        var a :| a in accs && Eligible(st, a, scan, model) && c == CandidateOf(a, KindOf(scan));
        if a != last {
          assert a in init;
        }
      }
    }
  }

  /** A Console account with a concurrency cap joins the pool only below its cap. */
  lemma ConsoleConcurrencyGate(st: Store, c: Candidate)
    requires c in ClaudeCandidates(st) && c.accountType == ClaudeConsole
    ensures exists a :: a in Pool(st, ClaudeConsole) && a.id == c.accountId
                     && (a.maxConcurrentTasks <= 0 || Concurrency(st, a.id) < a.maxConcurrentTasks)
  {
    var official := Candidates(st, Pool(st, ClaudeOfficial), OfficialScan, "");
    var console := Candidates(st, Pool(st, ClaudeConsole), ConsoleScan, "");
    var capped := Candidates(st, Pool(st, ClaudeConsole), ConsoleCappedScan, "");
    var bedrock := Candidates(st, Pool(st, Bedrock), BedrockScan, "");
    var ccr := Candidates(st, Pool(st, Ccr), CcrScan, "");
    CandidatesMembers(st, Pool(st, ClaudeOfficial), OfficialScan, "", c);
    CandidatesMembers(st, Pool(st, ClaudeConsole), ConsoleScan, "", c);
    CandidatesMembers(st, Pool(st, ClaudeConsole), ConsoleCappedScan, "", c);
    CandidatesMembers(st, Pool(st, Bedrock), BedrockScan, "", c);
    CandidatesMembers(st, Pool(st, Ccr), CcrScan, "", c);
    assert c in official || c in console || c in capped || c in bedrock || c in ccr;
  }

  // ---------------------------------------------------------------- ordering

  /** The comparator's order: lower priority first, then the least recently used. */
  predicate Before(a: Candidate, b: Candidate) {
    a.priority < b.priority || (a.priority == b.priority && a.lastUsedAt <= b.lastUsedAt)
  }

  predicate Sorted(s: seq<Candidate>) {
    forall i, j :: 0 <= i < j < |s| ==> Before(s[i], s[j])
  }

  /** Inserts `x` in front of the first element it does not follow, which keeps the sort stable. */
  function Insert(x: Candidate, s: seq<Candidate>): seq<Candidate> {
    if s == [] || Before(x, s[0]) then [x] + s
    else [s[0]] + Insert(x, s[1..])
  }

  /** `_sortAccountsByPriority`: the library's stable sort under the comparator. */
  function SortByPriority(cs: seq<Candidate>): seq<Candidate> {
    if cs == [] then [] else Insert(cs[0], SortByPriority(cs[1..]))
  }

  lemma {:induction false} SortLength(cs: seq<Candidate>)
    ensures |SortByPriority(cs)| == |cs|
  {
    if cs != [] {
      SortLength(cs[1..]);
      InsertLength(cs[0], SortByPriority(cs[1..]));
    }
  }

  lemma {:induction false} InsertLength(x: Candidate, s: seq<Candidate>)
    ensures |Insert(x, s)| == |s| + 1
  {
    if s != [] && !Before(x, s[0]) {
      InsertLength(x, s[1..]);
    }
  }

  lemma {:induction false} InsertPermutes(x: Candidate, s: seq<Candidate>)
    ensures multiset(Insert(x, s)) == multiset{x} + multiset(s)
  {
    if s != [] && !Before(x, s[0]) {
      InsertPermutes(x, s[1..]);
      assert s == [s[0]] + s[1..];
    }
  }

  lemma {:induction false} InsertSorted(x: Candidate, s: seq<Candidate>)
    requires Sorted(s)
    ensures Sorted(Insert(x, s))
  {
    if s != [] && !Before(x, s[0]) {
      InsertSorted(x, s[1..]);
      InsertPermutes(x, s[1..]);
      var r := Insert(x, s[1..]);
      forall j | 0 <= j < |r|
        ensures Before(s[0], r[j])
      {
        assert r[j] in multiset(r);
        assert r[j] == x || r[j] in multiset(s[1..]);
        if r[j] != x {
          assert r[j] in s[1..];
          var k :| 0 <= k < |s[1..]| && s[1..][k] == r[j];
          assert s[k + 1] == r[j];
        }
      }
    } else if s != [] {
      forall j | 0 < j < |s|
        ensures Before(x, s[j])
      {
        assert Before(s[0], s[j]);
      }
    }
  }

  /** The result is a permutation of the candidates, in comparator order. */
  lemma {:induction false} SortByPriorityCorrect(cs: seq<Candidate>)
    ensures multiset(SortByPriority(cs)) == multiset(cs)
    ensures Sorted(SortByPriority(cs))
  {
    if cs != [] {
      SortByPriorityCorrect(cs[1..]);
      InsertPermutes(cs[0], SortByPriority(cs[1..]));
      InsertSorted(cs[0], SortByPriority(cs[1..]));
      assert cs == [cs[0]] + cs[1..];
    }
  }

  /**
   * The selected account, the head of the sorted list, is the first candidate in pool order
   * among those with the lowest priority and the oldest `lastUsedAt`.
   */
  lemma {:induction false} SortHead(cs: seq<Candidate>)
    requires cs != []
    ensures |SortByPriority(cs)| == |cs|
    ensures exists j :: 0 <= j < |cs| && SortByPriority(cs)[0] == cs[j]
                     && (forall i :: 0 <= i < |cs| ==> Before(cs[j], cs[i]))
                     && (forall i :: 0 <= i < j ==> !Before(cs[i], cs[j]))
  {
    SortLength(cs);
    var rest := cs[1..];
    if rest == [] {
      assert SortByPriority(cs)[0] == cs[0];
    } else {
      SortHead(rest);
      var j' :| 0 <= j' < |rest| && SortByPriority(rest)[0] == rest[j']
                && (forall i :: 0 <= i < |rest| ==> Before(rest[j'], rest[i]))
                && (forall i :: 0 <= i < j' ==> !Before(rest[i], rest[j']));
      var h := rest[j'];
      if Before(cs[0], h) {
        assert SortByPriority(cs)[0] == cs[0];
        forall i | 0 <= i < |cs|
          ensures Before(cs[0], cs[i])
        {
          if i > 0 {
            assert Before(h, rest[i - 1]);
          }
        }
      } else {
        assert SortByPriority(cs)[0] == h == cs[j' + 1];
        forall i | 0 <= i < |cs|
          ensures Before(cs[j' + 1], cs[i])
        {
          if i > 0 {
            assert Before(h, rest[i - 1]);
          }
        }
        forall i | 0 <= i < j' + 1
          ensures !Before(cs[i], cs[j' + 1])
        {
          if i > 0 {
            assert !Before(rest[i - 1], rest[j']);
          }
        }
      }
    }
  }

  // ---------------------------------------------------------------- sessions

  /** `max(1, floor(stickyTtlHours * 3600))`, with one hour when unset. */
  function FullTtl(c: Config): (r: int)
    ensures r >= 1
    ensures c.stickyTtlHours == 0 ==> r == 3600
  {
    var hours := if c.stickyTtlHours == 0 then 1 else c.stickyTtlHours;
    if hours * 3600 < 1 then 1 else hours * 3600
  }

  /** `_getSessionMapping`: absent or unparsable mappings read as none. */
  function MappingOf(st: Store, hash: string): Option<Mapping> {
    if hash in st.sessions then st.sessions[hash].data else None
  }

  /** Redis `TTL`: -2 for a missing key, otherwise what is stored (-1 means no expiry). */
  function TtlOf(st: Store, hash: string): int {
    if hash in st.sessions then st.sessions[hash].ttl else -2
  }

  /** `_setSessionMapping`: `SETEX` with the full TTL. */
  function SetMapping(st: Store, hash: string, m: Mapping): Store {
    st.(sessions := st.sessions[hash := Session(Some(m), FullTtl(st.config))])
  }

  function DeleteMapping(st: Store, hash: string): Store {
    st.(sessions := st.sessions - {hash})
  }

  /** `_extendSessionMappingTTL`: the answer and the store after it. */
  function ExtendTtl(st: Store, hash: string): (bool, Store) {
    var remaining := TtlOf(st, hash);
    if remaining == -2 then (false, st)
    else if remaining == -1 then (true, st)
    else if st.config.renewalThresholdMinutes == 0 then (true, st)
    else
      var threshold := if st.config.renewalThresholdMinutes * 60 < 0 then 0 else st.config.renewalThresholdMinutes * 60;
      if remaining < threshold
      then (true, st.(sessions := st.sessions[hash := st.sessions[hash].(ttl := FullTtl(st.config))]))
      else (true, st)
  }

  /**
   * Renewal answers false only for a missing key, never adds or removes a mapping, and resets
   * the TTL to the full TTL exactly when a threshold is configured and the finite remaining TTL
   * is below it; nothing else in the store changes.
   */
  lemma TtlRenewal(st: Store, hash: string)
    ensures var (ok, st') := ExtendTtl(st, hash);
      && (ok <==> hash in st.sessions && st.sessions[hash].ttl != -2)
      && st'.sessions.Keys == st.sessions.Keys
      && st' == st.(sessions := st'.sessions)
      && (forall h :: h in st.sessions && h != hash ==> st'.sessions[h] == st.sessions[h])
      && var renewed := hash in st.sessions
           && st.sessions[hash].ttl != -2 && st.sessions[hash].ttl != -1
           && st.config.renewalThresholdMinutes != 0
           && st.sessions[hash].ttl < (if st.config.renewalThresholdMinutes * 60 < 0 then 0 else st.config.renewalThresholdMinutes * 60);
         (renewed ==> st'.sessions[hash] == st.sessions[hash].(ttl := FullTtl(st.config)))
         && (!renewed ==> st' == st)
  {
  }

  // ---------------------------------------------------------------- account updates

  function Touch(accs: seq<Account>, id: string, now: int): seq<Account> {
    seq(|accs|, i requires 0 <= i < |accs| => if accs[i].id == id then accs[i].(lastUsedAt := now) else accs[i])
  }

  /** `_markAccountUsed`: `lastUsedAt` of the account becomes now. */
  function MarkUsed(st: Store, id: string, k: Kind): Store {
    st.(pools := st.pools[k := Touch(Pool(st, k), id, st.now)])
  }

  /** The rate-limit fields a Gemini service writes on its record. */
  function LimitRecord(a: Account, on: bool, now: int): Account {
    a.(rateLimitStatus := if on then "limited" else "", rateLimitedAt := if on then Some(now) else None)
  }

  function SetGeminiLimit(accs: seq<Account>, id: string, on: bool, now: int): seq<Account> {
    seq(|accs|, i requires 0 <= i < |accs| => if accs[i].id == id then LimitRecord(accs[i], on, now) else accs[i])
  }

  /** `setAccountRateLimited(id, on)` of the account's own service; Bedrock has none. */
  function SetLimit(st: Store, id: string, k: Kind, on: bool): Store {
    match k
    case Gemini => st.(pools := st.pools[Gemini := SetGeminiLimit(Pool(st, Gemini), id, on, st.now)])
    case GeminiApi => st.(pools := st.pools[GeminiApi := SetGeminiLimit(Pool(st, GeminiApi), id, on, st.now)])
    case Bedrock => st
    case _ => st.(limited := if on then st.limited + {(k, id)} else st.limited - {(k, id)})
  }

  /** `markAccountRateLimited`: sets the flag and forgets the session's mapping. */
  function MarkLimited(st: Store, id: string, k: Kind, hash: string): Store {
    var st1 := SetLimit(st, id, k, true);
    if hash != "" then DeleteMapping(st1, hash) else st1
  }

  /** `removeAccountRateLimit`: clears the flag; mappings stay. */
  function RemoveLimit(st: Store, id: string, k: Kind): Store {
    SetLimit(st, id, k, false)
  }

  /** A limit written at `t` holds until `t` plus the record's duration in minutes (60 by default); a cleared one never does. */
  lemma LimitWindow(a: Account, t: int, now: int)
    ensures InWindow(LimitRecord(a, true, t), now) <==> now < t + DurationOf(a.rateLimitDuration) * 60000
    ensures a.rateLimitDuration == 0 ==> (InWindow(LimitRecord(a, true, t), now) <==> now < t + 3600000)
    ensures !InWindow(LimitRecord(a, false, t), now)
  {
  }

  lemma {:induction false} FindUpdated(accs: seq<Account>, id: string, on: bool, now: int)
    ensures Find(SetGeminiLimit(accs, id, on, now), id)
         == if Find(accs, id).Some? then Some(LimitRecord(Find(accs, id).value, on, now)) else None
  {
    if accs != [] {
      assert SetGeminiLimit(accs, id, on, now)[1..] == SetGeminiLimit(accs[1..], id, on, now);
      if accs[0].id != id {
        FindUpdated(accs[1..], id, on, now);
      }
    }
  }

  /**
   * After `markAccountRateLimited` a known account is unavailable: Claude-side accounts by
   * their flag, Gemini accounts for the whole rate-limit window that starts now, as long as the
   * record's duration is not negative. Bedrock accounts are left as they were.
   */
  lemma MarkThenUnavailable(st: Store, id: string, k: Kind, hash: string)
    requires Find(Pool(st, k), id).Some?
    requires k == Gemini || k == GeminiApi ==> Find(Pool(st, k), id).value.rateLimitDuration >= 0
    ensures k != Bedrock ==> !Available(MarkLimited(st, id, k, hash), id, k)
    ensures k == Bedrock ==> Available(MarkLimited(st, id, k, hash), id, k) == Available(st, id, k)
  {
    var st' := MarkLimited(st, id, k, hash);
    if k == Gemini || k == GeminiApi {
      FindUpdated(Pool(st, k), id, true, st.now);
      assert Pool(st', k) == SetGeminiLimit(Pool(st, k), id, true, st.now);
      assert GeminiLimited(st', id, k);
    }
  }

  /** After `removeAccountRateLimit` the account's own rate-limit flag is clear. */
  lemma RemoveClearsLimit(st: Store, id: string, k: Kind)
    ensures k == ClaudeOfficial || k == ClaudeConsole || k == Ccr ==> (k, id) !in RemoveLimit(st, id, k).limited
    ensures k == Gemini || k == GeminiApi ==> !GeminiLimited(RemoveLimit(st, id, k), id, k)
    ensures RemoveLimit(st, id, k).sessions == st.sessions
  {
    if k == Gemini || k == GeminiApi {
      FindUpdated(Pool(st, k), id, false, st.now);
      assert Pool(RemoveLimit(st, id, k), k) == SetGeminiLimit(Pool(st, k), id, false, st.now);
    }
  }

  /** Marking an account forgets exactly the given session's mapping and touches no other. */
  lemma MarkForgetsSession(st: Store, id: string, k: Kind, hash: string)
    ensures var st' := MarkLimited(st, id, k, hash);
      && (hash != "" ==> st'.sessions == st.sessions - {hash})
      && (hash == "" ==> st'.sessions == st.sessions)
      && (k == Bedrock ==> st' == (if hash != "" then DeleteMapping(st, hash) else st))
  {
  }

  // ---------------------------------------------------------------- groups

  /** `_extractGroupId`: the suffix after a leading `group:`, "" (null) otherwise. */
  function ExtractGroupId(accountId: string): (r: string)
    ensures StartsWith(accountId, "group:") ==> accountId == "group:" + r
    ensures !StartsWith(accountId, "group:") ==> r == ""
  {
    if StartsWith(accountId, "group:") then
      ReplaceFirstOfPrefix(accountId, "group:");
      ReplaceFirst(accountId, "group:", "")
    else ""
  }

  function Members(st: Store, groupId: string): seq<string> {
    if groupId in st.groups then st.groups[groupId] else []
  }

  /**
   * `_getGroupMemberAccount`: the member id is looked up in the pools of its platform in a
   * fixed order (Official, Console, Bedrock, CCR; Gemini, then Gemini API keys when allowed).
   */
  function GroupMember(st: Store, id: string, platform: Platform, allowApi: bool): (r: Option<Candidate>)
    ensures r.Some? ==> r.value.accountId == id && Find(Pool(st, r.value.accountType), id).Some?
    ensures r.Some? && platform == ClaudePlatform ==>
      && r.value.accountType in {ClaudeOfficial, ClaudeConsole, Bedrock, Ccr}
      && (r.value.accountType != ClaudeOfficial ==> id == "" || Find(Pool(st, ClaudeOfficial), id).None?)
      && (r.value.accountType in {Bedrock, Ccr} ==> Find(Pool(st, ClaudeConsole), id).None?)
      && (r.value.accountType == Ccr ==> Find(Pool(st, Bedrock), id).None?)
    ensures r.Some? && platform == GeminiPlatform ==>
      && r.value.accountType in {Gemini, GeminiApi}
      && (r.value.accountType == GeminiApi ==> allowApi && Find(Pool(st, Gemini), id).None?)
    ensures r.None? && platform == GeminiPlatform ==> Find(Pool(st, Gemini), id).None?
  {
    match platform
    case ClaudePlatform =>
      var official := Find(Pool(st, ClaudeOfficial), id);
      if official.Some? && official.value.id != "" then Some(CandidateOf(official.value, ClaudeOfficial))
      else
        var console := Find(Pool(st, ClaudeConsole), id);
        if console.Some? then Some(CandidateOf(console.value, ClaudeConsole))
        else
          var bedrock := Find(Pool(st, Bedrock), id);
          if bedrock.Some? then Some(CandidateOf(bedrock.value, Bedrock))
          else
            var ccr := Find(Pool(st, Ccr), id);
            if ccr.Some? then Some(CandidateOf(ccr.value, Ccr)) else None
    case GeminiPlatform =>
      var gemini := Find(Pool(st, Gemini), id);
      if gemini.Some? then Some(CandidateOf(gemini.value, Gemini))
      else if allowApi then
        var api := Find(Pool(st, GeminiApi), id);
        if api.Some? then Some(CandidateOf(api.value, GeminiApi)) else None
      else None
  }

  /** Whether a listed member resolves to an account that is available. */
  predicate Admitted(st: Store, id: string, platform: Platform, allowApi: bool) {
    var c := GroupMember(st, id, platform, allowApi);
    c.Some? && Available(st, c.value.accountId, c.value.accountType)
  }

  /** The available members of one group, in member order. */
  function GroupCandidates(st: Store, ids: seq<string>, platform: Platform, allowApi: bool): seq<Candidate> {
    if ids == [] then []
    else
      var id := ids[|ids| - 1];
      GroupCandidates(st, ids[..|ids| - 1], platform, allowApi)
      + (if Admitted(st, id, platform, allowApi) then [GroupMember(st, id, platform, allowApi).value] else [])
  }

  /**
   * The group's candidates are exactly its listed members that resolve and are available:
   * every candidate is such a member, and every such member is a candidate.
   */
  lemma {:induction false} GroupCandidatesAvailable(st: Store, ids: seq<string>, platform: Platform, allowApi: bool)
    ensures forall c :: c in GroupCandidates(st, ids, platform, allowApi) ==>
      c.accountId in ids && Available(st, c.accountId, c.accountType)
    ensures forall i :: 0 <= i < |ids| && Admitted(st, ids[i], platform, allowApi) ==>
      GroupMember(st, ids[i], platform, allowApi).value in GroupCandidates(st, ids, platform, allowApi)
  {
    if ids != [] {
      var init := ids[..|ids| - 1];
      GroupCandidatesAvailable(st, init, platform, allowApi);
      forall c | c in GroupCandidates(st, init, platform, allowApi)
        ensures c.accountId in ids
      {
        var k :| 0 <= k < |init| && init[k] == c.accountId;
        assert ids[k] == c.accountId;
      }
      forall i | 0 <= i < |ids| - 1
        ensures GroupMember(st, ids[i], platform, allowApi) == GroupMember(st, init[i], platform, allowApi)
      {
      }
    }
  }

  /** One member contributes itself when it resolves and is available, and nothing otherwise. */
  lemma GroupCandidatesSingle(st: Store, id: string, platform: Platform, allowApi: bool)
    ensures GroupCandidates(st, [id], platform, allowApi)
      == (if Admitted(st, id, platform, allowApi) then [GroupMember(st, id, platform, allowApi).value] else [])
  {
    assert [id][..0] == [];
  }

  /** The member scan distributes over concatenation, so candidates keep member order and multiplicity. */
  lemma {:induction false} GroupCandidatesAppend(st: Store, a: seq<string>, b: seq<string>, platform: Platform, allowApi: bool)
    ensures GroupCandidates(st, a + b, platform, allowApi)
      == GroupCandidates(st, a, platform, allowApi) + GroupCandidates(st, b, platform, allowApi)
    decreases |b|
  {
    if b == [] {
      assert a + b == a;
    } else {
      assert (a + b)[..|a + b| - 1] == a + b[..|b| - 1];
      assert (a + b)[|a + b| - 1] == b[|b| - 1];
      GroupCandidatesAppend(st, a, b[..|b| - 1], platform, allowApi);
    }
  }

  // ---------------------------------------------------------------- selection

  /** Sorting, taking the head, writing the session mapping and marking the account used. */
  function Pick(st: Store, hash: string, cands: seq<Candidate>, failure: string): Outcome {
    if cands == [] then Outcome(Err(failure), st)
    else
      SortLength(cands);
      var best := SortByPriority(cands)[0];
      var m := Mapping(best.accountId, best.accountType);
      var st1 := if hash != "" then SetMapping(st, hash, m) else st;
      Outcome(Ok(m), MarkUsed(st1, best.accountId, best.accountType))
  }

  /** Using a sticky mapping: renew its TTL, mark the account used, answer the stored mapping. */
  function Stick(st: Store, hash: string, m: Mapping): Outcome {
    Outcome(Ok(m), MarkUsed(ExtendTtl(st, hash).1, m.accountId, m.accountType))
  }

  /** Whether the mapped account belongs to one of the bound groups. */
  predicate InBoundGroup(st: Store, m: Mapping, claudeGroupId: string, geminiGroupId: string) {
    (claudeGroupId != "" && m.accountId in Members(st, claudeGroupId))
    || (geminiGroupId != "" && m.accountId in Members(st, geminiGroupId))
  }

  function BoundCandidates(st: Store, claudeGroupId: string, geminiGroupId: string, allowApi: bool): seq<Candidate> {
    (if claudeGroupId != "" && claudeGroupId in st.groups
     then GroupCandidates(st, st.groups[claudeGroupId], ClaudePlatform, allowApi) else [])
    + (if geminiGroupId != "" && geminiGroupId in st.groups
       then GroupCandidates(st, st.groups[geminiGroupId], GeminiPlatform, allowApi) else [])
  }

  /** `_selectAccountFromGroups`. */
  function GroupSelect(st: Store, hash: string, claudeGroupId: string, geminiGroupId: string, allowApi: bool): Outcome {
    var mapped := if hash != "" then MappingOf(st, hash) else None;
    if mapped.Some? && InBoundGroup(st, mapped.value, claudeGroupId, geminiGroupId)
       && Available(st, mapped.value.accountId, mapped.value.accountType)
    then Stick(st, hash, mapped.value)
    else
      var st1 := if mapped.Some? then DeleteMapping(st, hash) else st;
      Pick(st1, hash, BoundCandidates(st1, claudeGroupId, geminiGroupId, allowApi), NoGroupAccounts)
  }

  /** `selectAccountForApiKey`: group mode when a group is bound, the shared pool otherwise. */
  function Select(st: Store, key: ApiKey, hash: string, model: string, allowApi: bool): Outcome {
    var claudeGroupId := ExtractGroupId(key.claudeAccountId);
    var geminiGroupId := ExtractGroupId(key.geminiAccountId);
    if claudeGroupId != "" || geminiGroupId != "" then
      GroupSelect(st, hash, claudeGroupId, geminiGroupId, allowApi)
    else
      var mapped := if hash != "" then MappingOf(st, hash) else None;
      if mapped.Some? && Available(st, mapped.value.accountId, mapped.value.accountType)
      then Stick(st, hash, mapped.value)
      else
        var st1 := if mapped.Some? then DeleteMapping(st, hash) else st;
        Pick(st1, hash, SharedCandidates(st1, model, allowApi), NoSharedAccounts)
  }

  /** Marking an account used changes nothing but `lastUsedAt` in the pools. */
  lemma MarkUsedKeeps(st: Store, id: string, k: Kind)
    ensures MarkUsed(st, id, k) == st.(pools := MarkUsed(st, id, k).pools)
    ensures forall k' :: k' != k ==> Pool(MarkUsed(st, id, k), k') == Pool(st, k')
    ensures |Pool(MarkUsed(st, id, k), k)| == |Pool(st, k)|
    ensures forall i :: 0 <= i < |Pool(st, k)| ==>
      Pool(MarkUsed(st, id, k), k)[i] == (if Pool(st, k)[i].id == id then Pool(st, k)[i].(lastUsedAt := st.now) else Pool(st, k)[i])
  {
  }

  /**
   * The sticky path: an available mapped account is answered as stored, its mapping is kept
   * (possibly with a renewed TTL), and besides that only its `lastUsedAt` changes.
   */
  lemma StickyWins(st: Store, hash: string, m: Mapping)
    requires hash in st.sessions && st.sessions[hash].data == Some(m)
    ensures var o := Stick(st, hash, m);
      && o.result == Ok(m)
      && o.store.sessions.Keys == st.sessions.Keys
      && o.store.sessions[hash].data == Some(m)
      && o.store == st.(sessions := o.store.sessions, pools := o.store.pools)
      && (forall k :: k != m.accountType ==> Pool(o.store, k) == Pool(st, k))
  {
    TtlRenewal(st, hash);
    MarkUsedKeeps(ExtendTtl(st, hash).1, m.accountId, m.accountType);
  }

  /**
   * A fresh pick fails, with the given message, exactly when there are no candidates;
   * otherwise it answers the first candidate of the lowest priority and oldest use, writes
   * precisely that mapping with the full TTL when a session hash is given, and leaves the
   * other mappings alone.
   */
  lemma PickRules(st: Store, hash: string, cands: seq<Candidate>, failure: string)
    ensures var o := Pick(st, hash, cands, failure);
      && (o.result.Err? <==> cands == [])
      && (o.result.Err? ==> o.result.error == failure && o.store == st)
      && (o.result.Ok? ==>
            exists j :: 0 <= j < |cands|
              && o.result.value == Mapping(cands[j].accountId, cands[j].accountType)
              && (forall i :: 0 <= i < |cands| ==> Before(cands[j], cands[i]))
              && (forall i :: 0 <= i < j ==> !Before(cands[i], cands[j])))
      && (o.result.Ok? && hash != "" ==>
            o.store.sessions == st.sessions[hash := Session(Some(o.result.value), FullTtl(st.config))])
      && (hash == "" ==> o.store.sessions == st.sessions)
  {
    if cands != [] {
      SortHead(cands);
    }
  }

  /** Selection without a bound group: the sticky mapping wins while available, else a fresh pick. */
  lemma SharedSelection(st: Store, key: ApiKey, hash: string, model: string, allowApi: bool)
    requires ExtractGroupId(key.claudeAccountId) == "" && ExtractGroupId(key.geminiAccountId) == ""
    ensures var o := Select(st, key, hash, model, allowApi);
      var mapped := if hash != "" then MappingOf(st, hash) else None;
      && (mapped.Some? && Available(st, mapped.value.accountId, mapped.value.accountType) ==>
            o == Stick(st, hash, mapped.value) && o.result == Ok(mapped.value))
      && (mapped.Some? && !Available(st, mapped.value.accountId, mapped.value.accountType) ==>
            var st1 := DeleteMapping(st, hash);
            o == Pick(st1, hash, SharedCandidates(st1, model, allowApi), NoSharedAccounts))
      && (mapped.None? ==> o == Pick(st, hash, SharedCandidates(st, model, allowApi), NoSharedAccounts))
      && (o.result.Err? ==> o.result.error == NoSharedAccounts)
  {
    var mapped := if hash != "" then MappingOf(st, hash) else None;
    var st1 := if mapped.Some? then DeleteMapping(st, hash) else st;
    PickRules(st1, hash, SharedCandidates(st1, model, allowApi), NoSharedAccounts);
  }

  /**
   * Group mode honours a sticky mapping only for an available member of a bound group;
   * otherwise the mapping is deleted and the pick runs over the bound groups' available members.
   */
  lemma GroupSelection(st: Store, hash: string, claudeGroupId: string, geminiGroupId: string, allowApi: bool)
    ensures var o := GroupSelect(st, hash, claudeGroupId, geminiGroupId, allowApi);
      var mapped := if hash != "" then MappingOf(st, hash) else None;
      var honoured := mapped.Some? && InBoundGroup(st, mapped.value, claudeGroupId, geminiGroupId)
                      && Available(st, mapped.value.accountId, mapped.value.accountType);
      && (honoured ==> o.result == Ok(mapped.value))
      && (!honoured ==>
            var st1 := if mapped.Some? then DeleteMapping(st, hash) else st;
            && (mapped.Some? ==> hash !in st1.sessions)
            && o == Pick(st1, hash, BoundCandidates(st1, claudeGroupId, geminiGroupId, allowApi), NoGroupAccounts)
            && (o.result.Err? <==> BoundCandidates(st1, claudeGroupId, geminiGroupId, allowApi) == [])
            && (o.result.Err? ==> o.result.error == NoGroupAccounts)
            && (o.result.Ok? ==> Available(st1, o.result.value.accountId, o.result.value.accountType)))
  {
    var mapped := if hash != "" then MappingOf(st, hash) else None;
    var st1 := if mapped.Some? then DeleteMapping(st, hash) else st;
    var cands := BoundCandidates(st1, claudeGroupId, geminiGroupId, allowApi);
    PickRules(st1, hash, cands, NoGroupAccounts);
    var o := Pick(st1, hash, cands, NoGroupAccounts);
    if o.result.Ok? && o == GroupSelect(st, hash, claudeGroupId, geminiGroupId, allowApi) {
      var j :| 0 <= j < |cands| && o.result.value == Mapping(cands[j].accountId, cands[j].accountType);
      var claude := if claudeGroupId != "" && claudeGroupId in st1.groups
                    then GroupCandidates(st1, st1.groups[claudeGroupId], ClaudePlatform, allowApi) else [];
      var gemini := if geminiGroupId != "" && geminiGroupId in st1.groups
                    then GroupCandidates(st1, st1.groups[geminiGroupId], GeminiPlatform, allowApi) else [];
      assert cands == claude + gemini;
      assert cands[j] in claude || cands[j] in gemini;
      if claudeGroupId != "" && claudeGroupId in st1.groups {
        GroupCandidatesAvailable(st1, st1.groups[claudeGroupId], ClaudePlatform, allowApi);
      }
      if geminiGroupId != "" && geminiGroupId in st1.groups {
        GroupCandidatesAvailable(st1, st1.groups[geminiGroupId], GeminiPlatform, allowApi);
      }
    }
  }

  // ---------------------------------------------------------------- the scheduler object

  class MixedScheduler {
    var pools: map<Kind, seq<Account>>
    var limited: set<(Kind, string)>
    var overloaded: set<string>
    var quotaExceeded: set<(Kind, string)>
    var concurrency: map<string, int>
    var sessions: map<string, Session>
    var groups: map<string, seq<string>>
    var now: int
    var config: Config

    function Snapshot(): Store
      reads this
    {
      Store(pools, limited, overloaded, quotaExceeded, concurrency, sessions, groups, now, config)
    }

    constructor (st: Store)
      ensures Snapshot() == st
    {
      pools := st.pools;
      limited := st.limited;
      overloaded := st.overloaded;
      quotaExceeded := st.quotaExceeded;
      concurrency := st.concurrency;
      sessions := st.sessions;
      groups := st.groups;
      now := st.now;
      config := st.config;
    }

    /** One scan: pushes each eligible record of `accs`, in order. */
    method Collect(accs: seq<Account>, scan: Scan, model: string) returns (found: seq<Candidate>)
      ensures found == Candidates(Snapshot(), accs, scan, model)
    {
      found := [];
      var i := 0;
      while i < |accs|
        invariant 0 <= i <= |accs|
        invariant found == Candidates(Snapshot(), accs[..i], scan, model)
      {
        assert accs[..i + 1][..i] == accs[..i];
        if Eligible(Snapshot(), accs[i], scan, model) {
          found := found + [CandidateOf(accs[i], KindOf(scan))];
        }
        i := i + 1;
      }
      assert accs[..|accs|] == accs;
    }

    /** `_getAvailableGeminiAccounts`. */
    method AvailableGeminiAccounts(model: string, allowApi: bool) returns (found: seq<Candidate>)
      ensures found == GeminiCandidates(Snapshot(), model, allowApi)
    {
      found := Collect(Pool(Snapshot(), Gemini), GeminiScan, model);
      if allowApi {
        var api := Collect(Pool(Snapshot(), GeminiApi), GeminiApiScan, model);
        found := found + api;
      }
    }

    /** `_getAvailableClaudeAccounts`. */
    method AvailableClaudeAccounts() returns (found: seq<Candidate>)
      ensures found == ClaudeCandidates(Snapshot())
    {
      found := Collect(Pool(Snapshot(), ClaudeOfficial), OfficialScan, "");
      var console := Collect(Pool(Snapshot(), ClaudeConsole), ConsoleScan, "");
      var capped := Collect(Pool(Snapshot(), ClaudeConsole), ConsoleCappedScan, "");
      var bedrock := Collect(Pool(Snapshot(), Bedrock), BedrockScan, "");
      var ccr := Collect(Pool(Snapshot(), Ccr), CcrScan, "");
      found := found + console + capped + bedrock + ccr;
    }

    /** The members of one group that resolve to an available account. */
    method AvailableMembers(ids: seq<string>, platform: Platform, allowApi: bool) returns (found: seq<Candidate>)
      ensures found == GroupCandidates(Snapshot(), ids, platform, allowApi)
    {
      found := [];
      var i := 0;
      while i < |ids|
        invariant 0 <= i <= |ids|
        invariant found == GroupCandidates(Snapshot(), ids[..i], platform, allowApi)
      {
        assert ids[..i + 1][..i] == ids[..i];
        var info := GroupMember(Snapshot(), ids[i], platform, allowApi);
        if info.Some? && Available(Snapshot(), info.value.accountId, info.value.accountType) {
          found := found + [info.value];
        }
        i := i + 1;
      }
      assert ids[..|ids|] == ids;
    }

    method SetSessionMapping(hash: string, m: Mapping)
      modifies this
      ensures Snapshot() == SetMapping(old(Snapshot()), hash, m)
    {
      sessions := sessions[hash := Session(Some(m), FullTtl(config))];
    }

    method DeleteSessionMapping(hash: string)
      modifies this
      ensures Snapshot() == DeleteMapping(old(Snapshot()), hash)
    {
      sessions := sessions - {hash};
    }

    method ExtendSessionMappingTtl(hash: string) returns (ok: bool)
      modifies this
      ensures (ok, Snapshot()) == ExtendTtl(old(Snapshot()), hash)
    {
      var remaining := if hash in sessions then sessions[hash].ttl else -2;
      if remaining == -2 {
        return false;
      }
      if remaining == -1 {
        return true;
      }
      var minutes := config.renewalThresholdMinutes;
      if minutes == 0 {
        return true;
      }
      var full := FullTtl(config);
      var threshold := if minutes * 60 < 0 then 0 else minutes * 60;
      if remaining < threshold {
        sessions := sessions[hash := sessions[hash].(ttl := full)];
      }
      return true;
    }

    method MarkAccountUsed(id: string, k: Kind)
      modifies this
      ensures Snapshot() == MarkUsed(old(Snapshot()), id, k)
    {
      pools := pools[k := Touch(Pool(Snapshot(), k), id, now)];
    }

    method SetAccountRateLimited(id: string, k: Kind, on: bool)
      modifies this
      ensures Snapshot() == SetLimit(old(Snapshot()), id, k, on)
    {
      match k
      case Gemini =>
        pools := pools[Gemini := SetGeminiLimit(Pool(Snapshot(), Gemini), id, on, now)];
      case GeminiApi =>
        pools := pools[GeminiApi := SetGeminiLimit(Pool(Snapshot(), GeminiApi), id, on, now)];
      case Bedrock =>
      case _ =>
        limited := if on then limited + {(k, id)} else limited - {(k, id)};
    }

    method MarkAccountRateLimited(id: string, k: Kind, hash: string)
      modifies this
      ensures Snapshot() == MarkLimited(old(Snapshot()), id, k, hash)
    {
      SetAccountRateLimited(id, k, true);
      if hash != "" {
        DeleteSessionMapping(hash);
      }
    }

    method RemoveAccountRateLimit(id: string, k: Kind)
      modifies this
      ensures Snapshot() == RemoveLimit(old(Snapshot()), id, k)
    {
      SetAccountRateLimited(id, k, false);
    }

    /** Sort, take the head, write the mapping and mark the account used. */
    method PickFrom(hash: string, cands: seq<Candidate>, failure: string) returns (r: Result<Mapping>)
      modifies this
      ensures r == Pick(old(Snapshot()), hash, cands, failure).result
      ensures Snapshot() == Pick(old(Snapshot()), hash, cands, failure).store
    {
      if cands == [] {
        return Err(failure);
      }
      SortLength(cands);
      var best := SortByPriority(cands)[0];
      var m := Mapping(best.accountId, best.accountType);
      if hash != "" {
        SetSessionMapping(hash, m);
      }
      MarkAccountUsed(best.accountId, best.accountType);
      return Ok(m);
    }

    method StickTo(hash: string, m: Mapping) returns (r: Result<Mapping>)
      modifies this
      ensures r == Stick(old(Snapshot()), hash, m).result
      ensures Snapshot() == Stick(old(Snapshot()), hash, m).store
    {
      var _ := ExtendSessionMappingTtl(hash);
      MarkAccountUsed(m.accountId, m.accountType);
      return Ok(m);
    }

    method SelectFromGroups(hash: string, claudeGroupId: string, geminiGroupId: string, allowApi: bool)
      returns (r: Result<Mapping>)
      modifies this
      ensures r == GroupSelect(old(Snapshot()), hash, claudeGroupId, geminiGroupId, allowApi).result
      ensures Snapshot() == GroupSelect(old(Snapshot()), hash, claudeGroupId, geminiGroupId, allowApi).store
    {
      var mapped := if hash != "" then MappingOf(Snapshot(), hash) else None;
      if mapped.Some? {
        var m := mapped.value;
        var belongs := false;
        if claudeGroupId != "" && m.accountId in Members(Snapshot(), claudeGroupId) {
          belongs := true;
        }
        if !belongs && geminiGroupId != "" && m.accountId in Members(Snapshot(), geminiGroupId) {
          belongs := true;
        }
        if belongs && Available(Snapshot(), m.accountId, m.accountType) {
          r := StickTo(hash, m);
          return;
        }
        DeleteSessionMapping(hash);
      }
      ghost var st1 := Snapshot();
      var cands: seq<Candidate> := [];
      if claudeGroupId != "" && claudeGroupId in groups {
        cands := AvailableMembers(groups[claudeGroupId], ClaudePlatform, allowApi);
      }
      if geminiGroupId != "" && geminiGroupId in groups {
        var more := AvailableMembers(groups[geminiGroupId], GeminiPlatform, allowApi);
        cands := cands + more;
      }
      assert cands == BoundCandidates(st1, claudeGroupId, geminiGroupId, allowApi);
      r := PickFrom(hash, cands, NoGroupAccounts);
    }

    method SelectAccountForApiKey(key: ApiKey, hash: string, model: string, allowApi: bool)
      returns (r: Result<Mapping>)
      modifies this
      ensures r == Select(old(Snapshot()), key, hash, model, allowApi).result
      ensures Snapshot() == Select(old(Snapshot()), key, hash, model, allowApi).store
    {
      var claudeGroupId := ExtractGroupId(key.claudeAccountId);
      var geminiGroupId := ExtractGroupId(key.geminiAccountId);
      if claudeGroupId != "" || geminiGroupId != "" {
        r := SelectFromGroups(hash, claudeGroupId, geminiGroupId, allowApi);
        return;
      }
      var mapped := if hash != "" then MappingOf(Snapshot(), hash) else None;
      if mapped.Some? {
        if Available(Snapshot(), mapped.value.accountId, mapped.value.accountType) {
          r := StickTo(hash, mapped.value);
          return;
        }
        DeleteSessionMapping(hash);
      }
      var gemini := AvailableGeminiAccounts(model, allowApi);
      var claude := AvailableClaudeAccounts();
      r := PickFrom(hash, gemini + claude, NoSharedAccounts);
    }
  }
}
