/** The request admission pipeline of the story server: the create,
    continue and illustrate handlers and the backward-compatible `POST /`
    dispatch. Each handler is a method of `App` that updates the two rate
    limiters and the store step by step; each is proved equal to a
    specification function over a snapshot of that state, and the
    properties of the pipeline are proved as lemmas about those functions.
    Token verification, the policy loader, the model call and the store's
    failures are collaborator outcomes handed in with the call. */
module Pipeline {
  import opened Base
  import opened Text
  import opened Errors
  import opened Schemas
  import Policy
  import Auth
  import Env
  import Moderation
  import JsonText
  import StoryEngine
  import Store
  import ServerHelpers

  // ---------------------------------------------------------------------
  // Configuration, calls and responses
  // ---------------------------------------------------------------------

  /** What the handlers read from the environment. `hasFirestore` says
      whether a Firestore handle exists: one is opened when the policy
      lives in Firestore or the store is enabled. */
  datatype Config = Config(killSwitch: bool, storeDisabled: bool, hasFirestore: bool,
                           mockEngine: bool, geminiModel: string)

  function ConfigOf(env: Env.Env): (c: Config)
    ensures c.hasFirestore <==> env.policyMode == Env.FirestoreMode || !env.storeDisabled
    ensures c.killSwitch == env.killSwitch && c.storeDisabled == env.storeDisabled && c.mockEngine == env.mockEngine
  {
    Config(env.killSwitch, env.storeDisabled, env.policyMode == Env.FirestoreMode || !env.storeDisabled,
           env.mockEngine, env.geminiModel)
  }

  /** A calendar date the clock can show. */
  type Day = d: ServerHelpers.UtcDate | ServerHelpers.ValidDate(d) witness ServerHelpers.UtcDate(1970, 1, 1)

  /** One request as the handlers see it. `auth` is the outcome of token
      verification and `policy` that of the policy loader (`None` when it
      has no policy). `reqIp` is Express's `req.ip` ("" when unset) and
      `remoteAddress` the socket's. `contentLength` is the numeric value of
      the header (`Some(0)` when absent, `None` when it is not a finite
      number). `now` is the clock in milliseconds, `day` its UTC date, and
      the two UUIDs are the ones `randomUUID` draws in the handler. */
  datatype Call = Call(
    auth: Result<Auth.VerifiedAuth, Thrown>,
    policy: Option<Policy.RuntimePolicy>,
    reqIp: string, remoteAddress: Option<string>,
    contentLength: Option<int>,
    body: Json,
    now: int, day: Day,
    requestUuid: string, storyUuid: string)

  /** What the store and the model do on this call, beyond the store's own
      bookkeeping: a failure of the daily-limit transaction, the model's
      reply (as for `StoryEngine.GenerateCreate`), `JSON.parse`, the
      decimal text of non-integer numbers, and a failure of the story
      upsert. */
  datatype Upstream = Upstream(
    dailyFault: Option<Thrown>,
    reply: Result<Option<string>, Thrown>,
    jsonParse: string -> Option<Json>,
    numText: real -> string,
    upsertFault: Option<Thrown>)

  /** The JSON body of a response. */
  datatype Body =
    | ErrorOut(error: ErrorBody)
    | StoryOut(story: AgentResponse)
    | ImageOut(image: IllustrationResponse)

  datatype Response = Response(status: int, headers: seq<(string, string)>, body: Body)

  const ServiceDisabled := "Service temporarily disabled"

  /** Audit reasons and block kinds. */
  const GenerationDisabled := "generation_disabled"
  const DailyLimitReason := "daily_limit_exceeded"
  const InputBlock := "moderation_input"
  const OutputBlock := "moderation_output"
  const IllustrationsOff := "illustrations_disabled"

  /** The illustration answers' messages. */
  const IllustrationsUnavailable := "Illustrations unavailable"
  const NotConfigured := "Illustration generation is not configured yet"
  const DisabledByPolicy := "Illustrations are disabled by policy"

  function Plain(status: int, message: string): Response {
    Response(status, [], ErrorOut(ErrorBody(message, None)))
  }

  function Disabled(): Response { Plain(503, ServiceDisabled) }
  function TooMany(): Response { Plain(429, "Too many requests") }
  function TooLarge(): Response { Plain(413, "Request entity too large") }
  function DailyExceeded(): Response { Plain(429, "Daily limit exceeded") }
  function NotFound(): Response { Plain(404, "Story not found") }
  function Forbidden(): Response { Plain(403, "Forbidden") }
  function Unsupported(): Response { Plain(400, "Unsupported action") }

  function PolicyUnavailable(): Thrown { Fail(503, "POLICY_UNAVAILABLE", ServiceDisabled) }
  function StoreUnavailable(): Thrown { Fail(503, "STORE_UNAVAILABLE", ServiceDisabled) }

  /** The headers a moderation block sets. */
  function BlockedHeaders(kind: string): seq<(string, string)> {
    [("X-KidsTel-Blocked", "1"), ("X-KidsTel-Block-Reason", kind)]
  }

  /** The 1x1 transparent PNG sent in place of an illustration. */
  function Placeholder(): string {
    "data:image/png;base64,"
    + "iVBORw0KGgoAAAANSUhEUgAA"
    + "AAEAAAABCAQAAAC1HAwCAAAA"
    + "C0lEQVR42mP8/xcAAwMCAO9p"
    + "N1cAAAAASUVORK5CYII="
  }

  // ---------------------------------------------------------------------
  // Error mapping
  // ---------------------------------------------------------------------

  /** `requireAuth`'s reply when verification throws. */
  function AuthFailure(e: Thrown): (r: Response)
    ensures IsAppError(e) ==> r == Response(e.err.status, [], ErrorOut(ErrorBody(e.err.safeMessage, Some(e.err.code))))
    ensures !IsAppError(e) ==> r == Plain(401, "Unauthorized")
  {
    if IsAppError(e) then Response(e.err.status, [], ErrorOut(ToSafeErrorBody(e))) else Plain(401, "Unauthorized")
  }

  /** The `catch` of the create and continue handlers; `headers` are those
      already set when the error was thrown. */
  function Caught(e: Thrown, headers: seq<(string, string)>): (r: Response)
    ensures r.headers == headers
    ensures e.SchemaErr? ==> r.status == 400 && r.body == ErrorOut(ErrorBody("Invalid request", None))
    ensures e.AppErr? ==> r.status == e.err.status && r.body == ErrorOut(ErrorBody(e.err.safeMessage, Some(e.err.code)))
    ensures e.OtherErr? ==> r.status == 500 && r.body == ErrorOut(ErrorBody("Internal error", None))
  {
    if e.SchemaErr? then Response(400, headers, ErrorOut(ErrorBody("Invalid request", None)))
    else if IsAppError(e) then Response(e.err.status, headers, ErrorOut(ToSafeErrorBody(e)))
    else Response(500, headers, ErrorOut(ToSafeErrorBody(e)))
  }

  /** The `catch` of the illustrate handler: an error that is neither a
      schema error nor an `AppError` becomes a disabled placeholder. */
  function IllustrateCaught(e: Thrown): (r: Response)
    ensures !e.OtherErr? ==> r == Caught(e, [])
    ensures e.OtherErr? ==> r == Response(200, [], ImageOut(IllustrationResponse(true, IllustrationsUnavailable, Placeholder())))
  {
    if e.OtherErr? then Response(200, [], ImageOut(IllustrationResponse(true, IllustrationsUnavailable, Placeholder())))
    else Caught(e, [])
  }

  // ---------------------------------------------------------------------
  // The handlers' state, and steps that may end the request
  // ---------------------------------------------------------------------

  /** What the handlers change: the two limiters' buckets and the store's
      counters, stories and audit records. */
  datatype State = State(
    ipBuckets: map<string, ServerHelpers.Bucket>, uidBuckets: map<string, ServerHelpers.Bucket>,
    usage: map<string, int>, stories: map<string, Store.StoryDoc>, audits: map<string, Store.AuditDoc>)

  /** A stage either lets the request go on with a value, answers it, or
      throws to the handler's `catch` with the headers set so far. */
  datatype Step<T> = Next(value: T) | Stop(response: Response) | Raise(error: Thrown, headers: seq<(string, string)>)

  /** The caller admitted by the gates. */
  datatype Admitted = Admitted(uid: string, policy: Policy.RuntimePolicy)

  /** An audit write that may be skipped (`write` false) or may go nowhere
      because there is no Firestore handle, in which case its failure is
      swallowed. */
  function Audited(cfg: Config, write: bool, rec: Store.AuditRecord, now: int, s: State): (t: State)
    ensures write && cfg.hasFirestore ==> t == s.(audits := s.audits[rec.requestId := Store.AuditDoc(rec, now)])
    ensures !(write && cfg.hasFirestore) ==> t == s
  {
    if write && cfg.hasFirestore then s.(audits := s.audits[rec.requestId := Store.AuditDoc(rec, now)]) else s
  }

  function Blocked(route: string, uid: string, requestId: string, reason: string, storyId: Option<string>): Store.AuditRecord {
    Store.AuditRecord(requestId, uid, route, true, Some(reason), storyId)
  }

  function Passed(route: string, uid: string, requestId: string, storyId: string): Store.AuditRecord {
    Store.AuditRecord(requestId, uid, route, false, None, Some(storyId))
  }

  /** `${kind}:${mod.reason}`. */
  function BlockReason(kind: string, reason: Option<string>): string {
    kind + ":" + reason.GetOr("undefined")
  }

  /** `req.ip || req.socket.remoteAddress || 'unknown'`. */
  function ClientIp(call: Call): (ip: string)
    ensures ip != ""
  {
    if call.reqIp != "" then call.reqIp
    else if call.remoteAddress.Some? && call.remoteAddress.value != "" then call.remoteAddress.value
    else "unknown"
  }

  /** The body cap: a finite content length strictly above `max_body_kb` KiB. */
  predicate OverCap(contentLength: Option<int>, p: Policy.RuntimePolicy) {
    contentLength.Some? && contentLength.value > p.maxBodyKb * 1024
  }

  // ---------------------------------------------------------------------
  // The gates shared by the three handlers
  // ---------------------------------------------------------------------

  /** Auth, policy, the generation switch (not for illustrate), the IP and
      UID quotas and the body cap, in that order. */
  function GateSpec(cfg: Config, call: Call, route: string, checkGeneration: bool, s: State): (Step<Admitted>, State) {
    match call.auth
    case Err(e) => (Stop(AuthFailure(e)), s)
    case Ok(a) =>
      if call.policy.None? then (Raise(PolicyUnavailable(), []), s)
      else
        var p := call.policy.value;
        if checkGeneration && !p.enableStoryGeneration then
          var rec := Blocked(route, a.uid, StoryEngine.Rid("req", call.requestUuid), GenerationDisabled, None);
          (Stop(Disabled()), Audited(cfg, true, rec, call.now, s))
        else
          var ip := ServerHelpers.TakeSpec(s.ipBuckets, ClientIp(call), p.ipRatePerMin, call.now);
          var s1 := s.(ipBuckets := ip.1);
          if !ip.0 then (Stop(TooMany()), s1)
          else
            var u := ServerHelpers.TakeSpec(s1.uidBuckets, a.uid, p.uidRatePerMin, call.now);
            var s2 := s1.(uidBuckets := u.1);
            if !u.0 then (Stop(TooMany()), s2)
            else if OverCap(call.contentLength, p) then (Stop(TooLarge()), s2)
            else (Next(Admitted(a.uid, p)), s2)
  }

  /** The daily-limit step once the store is known to be enabled: a
      missing handle throws; a refusal, or any store error whose message
      names the limit, is answered with 429 and audited; another store
      error is rethrown. */
  function DailySpec(cfg: Config, call: Call, up: Upstream, route: string, adm: Admitted,
                     clientRequestId: Option<string>, storyId: Option<string>, s: State): (Step<()>, State) {
    if !cfg.hasFirestore then (Raise(StoreUnavailable(), []), s)
    else
      var key := Store.UsageKey(adm.uid, ServerHelpers.Yyyymmdd(call.day));
      var step := Store.DailyStep(s.usage, key, adm.policy.dailyStoryLimit);
      var outcome: Result<(), Thrown> :=
        if up.dailyFault.Some? then Err(up.dailyFault.value)
        else if step.0 then Ok(()) else Err(Store.DailyLimitExceeded);
      var s1 := if up.dailyFault.Some? then s else s.(usage := step.1);
      match outcome
      case Ok(_) => (Next(()), s1)
      case Err(e) =>
        if Includes(MessageOf(e), Store.DailyLimitCode) then
          var rec := Blocked(route, adm.uid, StoryEngine.RequestIdOf(clientRequestId, call.requestUuid), DailyLimitReason, storyId);
          (Stop(DailyExceeded()), Audited(cfg, true, rec, call.now, s1))
        else (Raise(e, []), s1)
  }

  /** The stub answer to a moderation block, or the error the response
      schema raises for it, with the block headers set either way. */
  function BlockedReply(kind: string, requestId: string, storyId: string, lang: Lang, chapterIndex: int): (r: Response)
    ensures r.headers == BlockedHeaders(kind)
  {
    match ServerHelpers.SafeStub(requestId, storyId, lang, chapterIndex)
    case Ok(a) => Response(200, BlockedHeaders(kind), StoryOut(a))
    case Err(e) => Caught(e, BlockedHeaders(kind))
  }

  /** The chapter a generated response is stored as. */
  function ChapterOf(out: AgentResponse): (c: Store.ChapterRecord)
    ensures c.chapterIndex == out.chapterIndex && c.title == out.title && c.text == out.text
    ensures c.progress == out.progress && c.choices == out.choices.GetOr([])
    ensures c.imageUrl.Some? <==> out.image.Present? && out.image.value.url.Present?
  {
    var url := if out.image.Present? && out.image.value.url.Present? then Some(out.image.value.url.value) else None;
    Store.ChapterRecord(out.chapterIndex, out.title, out.text, out.progress, out.choices.GetOr([]), url, None, None)
  }

  /** The session the handlers upsert: no metadata, only the chapters. */
  function SessionOf(storyId: string, uid: string, title: string, chapters: seq<Store.ChapterRecord>): Store.Session {
    Store.Session(storyId, uid, title, None, None, None, None, None, None, None, None, None, chapters)
  }

  function HeroOf(sel: Option<Selection>): string {
    if sel.Some? && sel.value.hero.Some? then sel.value.hero.value else ""
  }

  function LocationOf(sel: Option<Selection>): string {
    if sel.Some? && sel.value.location.Some? then sel.value.location.value else ""
  }

  function StyleOf(sel: Option<Selection>): string {
    if sel.Some? && sel.value.style.Some? then sel.value.style.value else ""
  }

  /** `body.image?.enabled ?? false`. */
  function ImageEnabled(image: Option<ImageToggle>): bool {
    image.Some? && image.value.enabled.Some? && image.value.enabled.value
  }

  /** The text moderated before a create: the request's free text as one
      JSON object. */
  function CreateInput(body: CreateRequest, numText: real -> string): string {
    JsonText.RenderMembers([("idea", JStr(body.idea.GetOr(""))), ("hero", JStr(HeroOf(body.selection))),
                            ("location", JStr(LocationOf(body.selection))), ("storyType", JStr(StyleOf(body.selection)))],
                           numText)
  }

  /** The text moderated before a continue: the choice (or `{}`) and the
      selection. */
  function ContinueInput(body: ContinueRequest, numText: real -> string): string {
    var choice := if body.choice.Some? then ChoiceInputJson(body.choice.value) else JObj(map[]);
    JsonText.RenderMembers([("choice", choice), ("hero", JStr(HeroOf(body.selection))),
                            ("location", JStr(LocationOf(body.selection))), ("storyType", JStr(StyleOf(body.selection)))],
                           numText)
  }

  /** The text moderated after generation. */
  function OutputText(out: AgentResponse): string { out.title + "\n" + out.text }

  // ---------------------------------------------------------------------
  // Create
  // ---------------------------------------------------------------------

  function CreateSpec(cfg: Config, call: Call, up: Upstream, route: string, s: State): (Response, State) {
    if cfg.killSwitch then (Disabled(), s)
    else
      var g := GateSpec(cfg, call, route, true, s);
      match g.0
      case Stop(r) => (r, g.1)
      case Raise(e, h) => (Caught(e, h), g.1)
      case Next(adm) =>
        match ParseCreate(call.body)
        case Err(e) => (Caught(e, []), g.1)
        case Ok(body) => CreateParsed(cfg, call, up, route, adm, body, g.1)
  }

  function CreateParsed(cfg: Config, call: Call, up: Upstream, route: string, adm: Admitted,
                        body: CreateRequest, s: State): (Response, State) {
    if cfg.storeDisabled then CreateAdmitted(cfg, call, up, route, adm, body, s)
    else
      var d := DailySpec(cfg, call, up, route, adm, body.requestId, None, s);
      match d.0
      case Stop(r) => (r, d.1)
      case Raise(e, h) => (Caught(e, h), d.1)
      case Next(_) => CreateAdmitted(cfg, call, up, route, adm, body, d.1)
  }

  /** Input moderation and generation. */
  function CreateAdmitted(cfg: Config, call: Call, up: Upstream, route: string, adm: Admitted,
                          body: CreateRequest, s: State): (Response, State) {
    var lang := ServerHelpers.GetLangOrDefault(ServerHelpers.LangText(body.storyLang));
    var mod := Moderation.ModerateText(CreateInput(body, up.numText), adm.policy.maxInputChars);
    if !mod.allowed then
      var requestId := StoryEngine.RequestIdOf(body.requestId, call.requestUuid);
      var rec := Blocked(route, adm.uid, requestId, BlockReason(InputBlock, mod.reason), None);
      (BlockedReply(InputBlock, requestId, StoryEngine.Rid("story", call.storyUuid), lang, 0),
       Audited(cfg, !cfg.storeDisabled, rec, call.now, s))
    else
      match StoryEngine.GenerateCreate(body.requestId, ImageEnabled(body.image), cfg.mockEngine,
                                       call.requestUuid, call.storyUuid, up.reply, up.jsonParse)
      case Err(e) => (Caught(e, []), s)
      case Ok(out) => CreateGenerated(cfg, call, up, route, adm, lang, out, s)
  }

  /** Output moderation and persistence. */
  function CreateGenerated(cfg: Config, call: Call, up: Upstream, route: string, adm: Admitted,
                           lang: Lang, out: AgentResponse, s: State): (Response, State) {
    var mod := Moderation.ModerateText(OutputText(out), adm.policy.maxOutputChars);
    if !mod.allowed then
      var rec := Blocked(route, adm.uid, out.requestId, BlockReason(OutputBlock, mod.reason), Some(out.storyId));
      (BlockedReply(OutputBlock, out.requestId, out.storyId, lang, 0), Audited(cfg, !cfg.storeDisabled, rec, call.now, s))
    else if cfg.storeDisabled then (Response(200, [], StoryOut(out)), s)
    else if !cfg.hasFirestore then (Caught(StoreUnavailable(), []), s)
    else if up.upsertFault.Some? then (Caught(up.upsertFault.value, []), s)
    else
      var session := SessionOf(out.storyId, adm.uid, out.title, [ChapterOf(out)]);
      var s1 := s.(stories := s.stories[out.storyId := Store.SessionDoc(session, call.now)]);
      (Response(200, [], StoryOut(out)), Audited(cfg, true, Passed(route, adm.uid, out.requestId, out.storyId), call.now, s1))
  }

  // ---------------------------------------------------------------------
  // Continue
  // ---------------------------------------------------------------------

  /** `last?.chapterIndex ?? body.chapterIndex ?? 0`: the chapter being
      continued from. */
  function BaseIndex(chapters: seq<Store.ChapterRecord>, requested: Option<int>): (n: int)
    ensures |chapters| > 0 ==> n == chapters[|chapters| - 1].chapterIndex
    ensures |chapters| == 0 ==> n == requested.GetOr(0)
  {
    if |chapters| > 0 then chapters[|chapters| - 1].chapterIndex else requested.GetOr(0)
  }

  /** The chapter a refused continue answers for: the one after `BaseIndex`. */
  function NextIndex(chapters: seq<Store.ChapterRecord>, requested: Option<int>): int {
    BaseIndex(chapters, requested) + 1
  }

  function ContinueSpec(cfg: Config, call: Call, up: Upstream, route: string, s: State): (Response, State) {
    if cfg.killSwitch then (Disabled(), s)
    else
      var g := GateSpec(cfg, call, route, true, s);
      match g.0
      case Stop(r) => (r, g.1)
      case Raise(e, h) => (Caught(e, h), g.1)
      case Next(adm) =>
        match ParseContinue(call.body)
        case Err(e) => (Caught(e, []), g.1)
        case Ok(body) => ContinueParsed(cfg, call, up, route, adm, body, g.1)
  }

  /** Continue needs the stored story: a disabled store answers 503. */
  function ContinueParsed(cfg: Config, call: Call, up: Upstream, route: string, adm: Admitted,
                          body: ContinueRequest, s: State): (Response, State) {
    if cfg.storeDisabled then (Disabled(), s)
    else
      var d := DailySpec(cfg, call, up, route, adm, body.requestId, Some(body.storyId), s);
      match d.0
      case Stop(r) => (r, d.1)
      case Raise(e, h) => (Caught(e, h), d.1)
      case Next(_) => ContinueLoaded(cfg, call, up, route, adm, body, d.1)
  }

  /** The stored story, its owner, and input moderation. */
  function ContinueLoaded(cfg: Config, call: Call, up: Upstream, route: string, adm: Admitted,
                          body: ContinueRequest, s: State): (Response, State) {
    if body.storyId !in s.stories then (NotFound(), s)
    else
      var data := s.stories[body.storyId];
      if data.uid != adm.uid then (Forbidden(), s)
      else ContinueOwned(cfg, call, up, route, adm, body, data, s)
  }

  /** Input moderation and generation, from the chapter the story ends at. */
  function ContinueOwned(cfg: Config, call: Call, up: Upstream, route: string, adm: Admitted,
                         body: ContinueRequest, data: Store.StoryDoc, s: State): (Response, State) {
    var lang := ServerHelpers.GetLangOrDefault(ServerHelpers.LangText(body.storyLang));
    var base := BaseIndex(data.chapters, body.chapterIndex);
    var mod := Moderation.ModerateText(ContinueInput(body, up.numText), adm.policy.maxInputChars);
    if !mod.allowed then ContinueRefused(cfg, call, route, adm, body, lang, NextIndex(data.chapters, body.chapterIndex), mod.reason, s)
    else ContinueDraft(cfg, call, up, route, adm, body, lang, data, base, s)
  }

  /** A continue whose input moderation refused: audited, and answered
      with the stub for chapter `next`. */
  function ContinueRefused(cfg: Config, call: Call, route: string, adm: Admitted, body: ContinueRequest,
                           lang: Lang, next: int, reason: Option<string>, s: State): (Response, State) {
    var requestId := StoryEngine.RequestIdOf(body.requestId, call.requestUuid);
    var rec := Blocked(route, adm.uid, requestId, BlockReason(InputBlock, reason), Some(body.storyId));
    (BlockedReply(InputBlock, requestId, body.storyId, lang, next), Audited(cfg, true, rec, call.now, s))
  }

  /** Generation, continuing from chapter `base`. */
  function ContinueDraft(cfg: Config, call: Call, up: Upstream, route: string, adm: Admitted,
                         body: ContinueRequest, lang: Lang, data: Store.StoryDoc, base: int, s: State): (Response, State) {
    match StoryEngine.GenerateContinue(body.requestId, body.storyId, Some(base), cfg.mockEngine,
                                       call.requestUuid, up.reply, up.jsonParse)
    case Err(e) => (Caught(e, []), s)
    case Ok(out) => ContinueGenerated(cfg, call, up, route, adm, lang, data, out, s)
  }

  /** Output moderation, then the story rewritten with one more chapter. */
  function ContinueGenerated(cfg: Config, call: Call, up: Upstream, route: string, adm: Admitted,
                             lang: Lang, data: Store.StoryDoc, out: AgentResponse, s: State): (Response, State) {
    var mod := Moderation.ModerateText(OutputText(out), adm.policy.maxOutputChars);
    if !mod.allowed then
      var rec := Blocked(route, adm.uid, out.requestId, BlockReason(OutputBlock, mod.reason), Some(out.storyId));
      (BlockedReply(OutputBlock, out.requestId, out.storyId, lang, out.chapterIndex), Audited(cfg, true, rec, call.now, s))
    else if up.upsertFault.Some? then (Caught(up.upsertFault.value, []), s)
    else
      var session := SessionOf(out.storyId, adm.uid, data.title, data.chapters + [ChapterOf(out)]);
      var s1 := s.(stories := s.stories[out.storyId := Store.SessionDoc(session, call.now)]);
      (Response(200, [], StoryOut(out)), Audited(cfg, true, Passed(route, adm.uid, out.requestId, out.storyId), call.now, s1))
  }

  // ---------------------------------------------------------------------
  // Illustrate
  // ---------------------------------------------------------------------

  /** An illustration answer, passed through the response schema. */
  function IllustrationReply(disabled: bool, reason: string): Result<IllustrationResponse, Thrown> {
    ParseIllustration(IllustrationJson(IllustrationResponse(disabled, reason, Placeholder())))
  }

  function IllustrateSpec(cfg: Config, call: Call, up: Upstream, route: string, s: State): (Response, State) {
    if cfg.killSwitch then (Disabled(), s)
    else
      var g := GateSpec(cfg, call, route, false, s);
      match g.0
      case Stop(r) => (r, g.1)
      case Raise(e, _) => (IllustrateCaught(e), g.1)
      case Next(adm) =>
        match ParseIllustrate(call.body)
        case Err(e) => (IllustrateCaught(e), g.1)
        case Ok(body) => IllustrateParsed(cfg, call, up, route, adm, body, g.1)
  }

  function IllustrateParsed(cfg: Config, call: Call, up: Upstream, route: string, adm: Admitted,
                            body: IllustrateRequest, s: State): (Response, State) {
    if cfg.storeDisabled then IllustrateAdmitted(cfg, call, route, adm, body, s)
    else
      var d := DailySpec(cfg, call, up, route, adm, body.requestId, Some(body.storyId), s);
      match d.0
      case Stop(r) => (r, d.1)
      case Raise(e, _) => (IllustrateCaught(e), d.1)
      case Next(_) => IllustrateAdmitted(cfg, call, route, adm, body, d.1)
  }

  /** No image backend is wired: the answer is the placeholder, disabled
      when the policy switches illustrations off. */
  function IllustrateAdmitted(cfg: Config, call: Call, route: string, adm: Admitted,
                              body: IllustrateRequest, s: State): (Response, State) {
    var requestId := StoryEngine.RequestIdOf(body.requestId, call.requestUuid);
    var enabled := adm.policy.enableIllustrations;
    var rec := if enabled then Passed(route, adm.uid, requestId, body.storyId)
               else Blocked(route, adm.uid, requestId, IllustrationsOff, Some(body.storyId));
    var reason := if enabled then NotConfigured else DisabledByPolicy;
    var t := Audited(cfg, !cfg.storeDisabled, rec, call.now, s);
    match IllustrationReply(!enabled, reason)
    case Ok(v) => (Response(200, [], ImageOut(v)), t)
    case Err(e) => (IllustrateCaught(e), t)
  }

  // ---------------------------------------------------------------------
  // POST / dispatch
  // ---------------------------------------------------------------------

  /** `String(v)` of a JSON value. */
  function JsText(j: Json, numText: real -> string): string
    decreases j, 1
  {
    match j
    case JNull => "null"
    case JBool(b) => if b then "true" else "false"
    case JNum(n) => JsonText.NumberText(n, numText)
    case JStr(s) => s
    case JArr(_) => ItemsText(j, 0, numText)
    case JObj(_) => "[object Object]"
  }

  /** `Array.prototype.join(',')`, where a null element is written as "". */
  function ItemsText(j: Json, i: nat, numText: real -> string): string
    requires j.JArr? && i <= |j.items|
    decreases j, 0, |j.items| - i
  {
    if i == |j.items| then ""
    else
      (if i > 0 then "," else "") + (if j.items[i].JNull? then "" else JsText(j.items[i], numText))
      + ItemsText(j, i + 1, numText)
  }

  /** `(req.body?.action ?? '').toString().trim().toLowerCase()`. */
  function Action(body: Json, numText: real -> string): string {
    var a := Member(body, "action");
    ToLower(Trim(if a.None? || a.value.JNull? then "" else JsText(a.value, numText)))
  }

  /** The three request handlers of the app. */
  datatype Handler = CreateHandler | ContinueHandler | IllustrateHandler

  /** What a `POST` leads to: a handler run with the route it records in
      its audits, or a fixed answer given without touching any state. */
  datatype Target = Run(handler: Handler, route: string) | Answer(response: Response)

  /** The backward-compatible `POST /`: the action picks the handler, which
      records `/` as its route; any other action is refused with 400. */
  function DispatchTarget(action: string): (t: Target)
    ensures t == Run(CreateHandler, "/") <==> action == "generate"
    ensures t == Run(ContinueHandler, "/") <==> action == "continue"
    ensures t == Run(IllustrateHandler, "/") <==> action == "illustrate"
    ensures t.Answer? <==> action != "generate" && action != "continue" && action != "illustrate"
    ensures t.Answer? ==> t.response == Unsupported() && t.response.status == 400
  {
    if action == "generate" then Run(CreateHandler, "/")
    else if action == "continue" then Run(ContinueHandler, "/")
    else if action == "illustrate" then Run(IllustrateHandler, "/")
    else Answer(Unsupported())
  }

  /** The routes `createApp` registers; `None` for a path the app does not
      serve. */
  function PostTarget(path: string, body: Json, numText: real -> string): Option<Target> {
    if path == "/" then Some(DispatchTarget(Action(body, numText)))
    else if path == "/v1/story/create" then Some(Run(CreateHandler, path))
    else if path == "/v1/story/continue" then Some(Run(ContinueHandler, path))
    else if path == "/v1/story/illustrate" then Some(Run(IllustrateHandler, path))
    else None
  }

  // ---------------------------------------------------------------------
  // The app
  // ---------------------------------------------------------------------

  /** What `createApp` builds: the configuration, one limiter per key kind
      and the store. The handlers change nothing else. */
  class App {
    const config: Config
    const ipLimiter: ServerHelpers.RateLimiter
    const uidLimiter: ServerHelpers.RateLimiter
    const store: Store.StoryStore

    ghost predicate Valid()
      reads store
    {
      ipLimiter != uidLimiter && store.Valid()
    }

    function Snapshot(): State
      reads ipLimiter, uidLimiter, store
    {
      State(ipLimiter.buckets, uidLimiter.buckets, store.usage, store.stories, store.audits)
    }

    constructor(env: Env.Env)
      ensures config == ConfigOf(env) && Valid()
      ensures Snapshot() == State(map[], map[], map[], map[], map[])
    {
      config := ConfigOf(env);
      ipLimiter := new ServerHelpers.RateLimiter();
      uidLimiter := new ServerHelpers.RateLimiter();
      store := new Store.StoryStore();
    }

    /** `store.writeAudit(..).catch(() => undefined)`, when `write`. */
    method Audit(write: bool, rec: Store.AuditRecord, now: int)
      requires Valid()
      modifies store
      ensures Valid() && store.chapterDocs == old(store.chapterDocs)
      ensures Snapshot() == Audited(config, write, rec, now, old(Snapshot()))
    {
      if write && config.hasFirestore {
        store.WriteAudit(rec, now);
      }
    }

    method Gate(call: Call, route: string, checkGeneration: bool) returns (st: Step<Admitted>)
      requires Valid()
      modifies ipLimiter, uidLimiter, store
      ensures Valid() && store.chapterDocs == old(store.chapterDocs)
      ensures (st, Snapshot()) == GateSpec(config, call, route, checkGeneration, old(Snapshot()))
    {
      if call.auth.Err? {
        return Stop(AuthFailure(call.auth.error));
      }
      var uid := call.auth.value.uid;
      if call.policy.None? {
        return Raise(PolicyUnavailable(), []);
      }
      var p := call.policy.value;
      if checkGeneration && !p.enableStoryGeneration {
        Audit(true, Blocked(route, uid, StoryEngine.Rid("req", call.requestUuid), GenerationDisabled, None), call.now);
        return Stop(Disabled());
      }
      var ipOk := ipLimiter.Take(ClientIp(call), p.ipRatePerMin, call.now);
      if !ipOk {
        return Stop(TooMany());
      }
      var uidOk := uidLimiter.Take(uid, p.uidRatePerMin, call.now);
      if !uidOk {
        return Stop(TooMany());
      }
      if OverCap(call.contentLength, p) {
        return Stop(TooLarge());
      }
      return Next(Admitted(uid, p));
    }

    method Daily(call: Call, up: Upstream, route: string, adm: Admitted,
                 clientRequestId: Option<string>, storyId: Option<string>) returns (st: Step<()>)
      requires Valid()
      modifies store
      ensures Valid() && store.chapterDocs == old(store.chapterDocs)
      ensures (st, Snapshot()) == DailySpec(config, call, up, route, adm, clientRequestId, storyId, old(Snapshot()))
    {
      if !config.hasFirestore {
        return Raise(StoreUnavailable(), []);
      }
      var outcome: Result<(), Thrown>;
      if up.dailyFault.Some? {
        outcome := Err(up.dailyFault.value);
      } else {
        outcome := store.EnforceDailyLimit(adm.uid, adm.policy.dailyStoryLimit, ServerHelpers.Yyyymmdd(call.day));
      }
      if outcome.Ok? {
        return Next(());
      }
      var e := outcome.error;
      if Includes(MessageOf(e), Store.DailyLimitCode) {
        var requestId := StoryEngine.RequestIdOf(clientRequestId, call.requestUuid);
        Audit(true, Blocked(route, adm.uid, requestId, DailyLimitReason, storyId), call.now);
        return Stop(DailyExceeded());
      }
      return Raise(e, []);
    }

    /** `handleCreate`. */
    method HandleCreate(call: Call, up: Upstream, route: string) returns (r: Response)
      requires Valid()
      modifies ipLimiter, uidLimiter, store
      ensures Valid() && store.chapterDocs == old(store.chapterDocs)
      ensures (r, Snapshot()) == CreateSpec(config, call, up, route, old(Snapshot()))
    {
      if config.killSwitch {
        return Disabled();
      }
      var g := Gate(call, route, true);
      if g.Stop? {
        return g.response;
      } else if g.Raise? {
        return Caught(g.error, g.headers);
      }
      var adm := g.value;
      var parsed := ParseCreate(call.body);
      if parsed.Err? {
        return Caught(parsed.error, []);
      }
      var body := parsed.value;
      if !config.storeDisabled {
        var d := Daily(call, up, route, adm, body.requestId, None);
        if d.Stop? {
          return d.response;
        } else if d.Raise? {
          return Caught(d.error, d.headers);
        }
      }
      r := CreateAfterDaily(call, up, route, adm, body);
    }

    /** The create handler from input moderation on. */
    method CreateAfterDaily(call: Call, up: Upstream, route: string, adm: Admitted, body: CreateRequest) returns (r: Response)
      requires Valid()
      modifies store
      ensures Valid() && store.chapterDocs == old(store.chapterDocs)
      ensures (r, Snapshot()) == CreateAdmitted(config, call, up, route, adm, body, old(Snapshot()))
    {
      var lang := ServerHelpers.GetLangOrDefault(ServerHelpers.LangText(body.storyLang));
      var mod := Moderation.ModerateText(CreateInput(body, up.numText), adm.policy.maxInputChars);
      if !mod.allowed {
        var requestId := StoryEngine.RequestIdOf(body.requestId, call.requestUuid);
        Audit(!config.storeDisabled, Blocked(route, adm.uid, requestId, BlockReason(InputBlock, mod.reason), None), call.now);
        return BlockedReply(InputBlock, requestId, StoryEngine.Rid("story", call.storyUuid), lang, 0);
      }
      var gen := StoryEngine.GenerateCreate(body.requestId, ImageEnabled(body.image), config.mockEngine,
                                            call.requestUuid, call.storyUuid, up.reply, up.jsonParse);
      if gen.Err? {
        return Caught(gen.error, []);
      }
      r := CreateFinish(call, up, route, adm, lang, gen.value);
    }

    /** The create handler from output moderation on. */
    method CreateFinish(call: Call, up: Upstream, route: string, adm: Admitted, lang: Lang, out: AgentResponse) returns (r: Response)
      requires Valid()
      modifies store
      ensures Valid() && store.chapterDocs == old(store.chapterDocs)
      ensures (r, Snapshot()) == CreateGenerated(config, call, up, route, adm, lang, out, old(Snapshot()))
    {
      var modOut := Moderation.ModerateText(OutputText(out), adm.policy.maxOutputChars);
      if !modOut.allowed {
        Audit(!config.storeDisabled, Blocked(route, adm.uid, out.requestId, BlockReason(OutputBlock, modOut.reason), Some(out.storyId)), call.now);
        return BlockedReply(OutputBlock, out.requestId, out.storyId, lang, 0);
      }
      if !config.storeDisabled {
        if !config.hasFirestore {
          return Caught(StoreUnavailable(), []);
        }
        if up.upsertFault.Some? {
          return Caught(up.upsertFault.value, []);
        }
        store.UpsertStorySession(SessionOf(out.storyId, adm.uid, out.title, [ChapterOf(out)]), call.now);
        Audit(true, Passed(route, adm.uid, out.requestId, out.storyId), call.now);
      }
      return Response(200, [], StoryOut(out));
    }
 
    /** `handleContinue`. */
    method HandleContinue(call: Call, up: Upstream, route: string) returns (r: Response)
      requires Valid()
      modifies ipLimiter, uidLimiter, store
      ensures Valid() && store.chapterDocs == old(store.chapterDocs)
      ensures (r, Snapshot()) == ContinueSpec(config, call, up, route, old(Snapshot()))
    {
      if config.killSwitch {
        return Disabled();
      }
      var g := Gate(call, route, true);
      if g.Stop? {
        return g.response;
      } else if g.Raise? {
        return Caught(g.error, g.headers);
      }
      var adm := g.value;
      var parsed := ParseContinue(call.body);
      if parsed.Err? {
        return Caught(parsed.error, []);
      }
      var body := parsed.value;
      if config.storeDisabled {
        return Disabled();
      }
      var d := Daily(call, up, route, adm, body.requestId, Some(body.storyId));
      if d.Stop? {
        return d.response;
      } else if d.Raise? {
        return Caught(d.error, d.headers);
      }
      r := ContinueWithStory(call, up, route, adm, body);
    }

    /** The continue handler from reading the story on. */
    method ContinueWithStory(call: Call, up: Upstream, route: string, adm: Admitted, body: ContinueRequest) returns (r: Response)
      requires Valid()
      modifies store
      ensures Valid() && store.chapterDocs == old(store.chapterDocs)
      ensures (r, Snapshot()) == ContinueLoaded(config, call, up, route, adm, body, old(Snapshot()))
    {
      var snap := store.StoryDocOf(body.storyId);
      if snap.None? {
        return NotFound();
      }
      var data := snap.value;
      if data.uid != adm.uid {
        return Forbidden();
      }
      r := ContinueOwnedStory(call, up, route, adm, body, data);
    }

    /** The continue handler once the caller owns the story. */
    method ContinueOwnedStory(call: Call, up: Upstream, route: string, adm: Admitted, body: ContinueRequest,
                              data: Store.StoryDoc) returns (r: Response)
      requires Valid()
      modifies store
      ensures Valid() && store.chapterDocs == old(store.chapterDocs)
      ensures (r, Snapshot()) == ContinueOwned(config, call, up, route, adm, body, data, old(Snapshot()))
    {
      ghost var s0 := Snapshot();
      var lang := ServerHelpers.GetLangOrDefault(ServerHelpers.LangText(body.storyLang));
      var base := BaseIndex(data.chapters, body.chapterIndex);
      var mod := Moderation.ModerateText(ContinueInput(body, up.numText), adm.policy.maxInputChars);
      if !mod.allowed {
        var requestId := StoryEngine.RequestIdOf(body.requestId, call.requestUuid);
        var rec := Blocked(route, adm.uid, requestId, BlockReason(InputBlock, mod.reason), Some(body.storyId));
        Audit(true, rec, call.now);
        var next := NextIndex(data.chapters, body.chapterIndex);
        r := BlockedReply(InputBlock, requestId, body.storyId, lang, next);
        assert ContinueRefused(config, call, route, adm, body, lang, next, mod.reason, s0) == (r, Snapshot());
        return;
      }
      r := ContinueGenerate(call, up, route, adm, body, lang, data, base);
    }

    /** The continue handler's model call. */
    method ContinueGenerate(call: Call, up: Upstream, route: string, adm: Admitted, body: ContinueRequest,
                            lang: Lang, data: Store.StoryDoc, base: int) returns (r: Response)
      requires Valid()
      modifies store
      ensures Valid() && store.chapterDocs == old(store.chapterDocs)
      ensures (r, Snapshot()) == ContinueDraft(config, call, up, route, adm, body, lang, data, base, old(Snapshot()))
    {
      var gen := StoryEngine.GenerateContinue(body.requestId, body.storyId, Some(base), config.mockEngine,
                                              call.requestUuid, up.reply, up.jsonParse);
      if gen.Err? {
        return Caught(gen.error, []);
      }
      r := ContinueFinish(call, up, route, adm, lang, data, gen.value);
    }

    /** The continue handler from output moderation on. */
    method ContinueFinish(call: Call, up: Upstream, route: string, adm: Admitted, lang: Lang,
                          data: Store.StoryDoc, out: AgentResponse) returns (r: Response)
      requires Valid()
      modifies store
      ensures Valid() && store.chapterDocs == old(store.chapterDocs)
      ensures (r, Snapshot()) == ContinueGenerated(config, call, up, route, adm, lang, data, out, old(Snapshot()))
    {
      var modOut := Moderation.ModerateText(OutputText(out), adm.policy.maxOutputChars);
      if !modOut.allowed {
        Audit(true, Blocked(route, adm.uid, out.requestId, BlockReason(OutputBlock, modOut.reason), Some(out.storyId)), call.now);
        return BlockedReply(OutputBlock, out.requestId, out.storyId, lang, out.chapterIndex);
      }
      if up.upsertFault.Some? {
        return Caught(up.upsertFault.value, []);
      }
      var nextChapters := data.chapters + [ChapterOf(out)];
      store.UpsertStorySession(SessionOf(out.storyId, adm.uid, data.title, nextChapters), call.now);
      Audit(true, Passed(route, adm.uid, out.requestId, out.storyId), call.now);
      return Response(200, [], StoryOut(out));
    }

    /** `handleIllustrate`. */
    method HandleIllustrate(call: Call, up: Upstream, route: string) returns (r: Response)
      requires Valid()
      modifies ipLimiter, uidLimiter, store
      ensures Valid() && store.chapterDocs == old(store.chapterDocs)
      ensures (r, Snapshot()) == IllustrateSpec(config, call, up, route, old(Snapshot()))
    {
      if config.killSwitch {
        return Disabled();
      }
      var g := Gate(call, route, false);
      if g.Stop? {
        return g.response;
      } else if g.Raise? {
        return IllustrateCaught(g.error);
      }
      var adm := g.value;
      var parsed := ParseIllustrate(call.body);
      if parsed.Err? {
        return IllustrateCaught(parsed.error);
      }
      var body := parsed.value;
      if !config.storeDisabled {
        var d := Daily(call, up, route, adm, body.requestId, Some(body.storyId));
        if d.Stop? {
          return d.response;
        } else if d.Raise? {
          return IllustrateCaught(d.error);
        }
      }
      var requestId := StoryEngine.RequestIdOf(body.requestId, call.requestUuid);
      var reply: Result<IllustrationResponse, Thrown>;
      if !adm.policy.enableIllustrations {
        Audit(!config.storeDisabled, Blocked(route, adm.uid, requestId, IllustrationsOff, Some(body.storyId)), call.now);
        reply := IllustrationReply(true, DisabledByPolicy);
      } else {
        Audit(!config.storeDisabled, Passed(route, adm.uid, requestId, body.storyId), call.now);
        reply := IllustrationReply(false, NotConfigured);
      }
      if reply.Err? {
        return IllustrateCaught(reply.error);
      }
      return Response(200, [], ImageOut(reply.value));
    }
  }
}
