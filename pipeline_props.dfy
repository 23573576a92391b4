/** What the request pipeline guarantees: the order of its gates, the
    daily limit and its audit record, what a moderation block does and
    does not do, how continue extends a story, the illustrate placeholder
    and the `POST /` dispatch. Every lemma is about the specification
    functions of `Pipeline`, which the handler methods are proved to
    follow. */
module PipelineProps {
  import opened Base
  import opened Text
  import opened Errors
  import opened Schemas
  import opened Pipeline
  import Policy
  import Moderation
  import JsonText
  import StoryEngine
  import Store
  import ServerHelpers

  // ---------------------------------------------------------------------
  // Gate order
  // ---------------------------------------------------------------------

  /** The kill switch answers 503 before anything else, and changes nothing. */
  lemma KillSwitchFirst(cfg: Config, call: Call, up: Upstream, route: string, s: State)
    requires cfg.killSwitch
    ensures CreateSpec(cfg, call, up, route, s) == (Disabled(), s)
    ensures ContinueSpec(cfg, call, up, route, s) == (Disabled(), s)
    ensures Disabled().status == 503
  {
  }

  /** A failed verification is answered before the policy is consulted:
      an `AppError` with its own status and code, anything else with 401. */
  lemma AuthBeforePolicy(cfg: Config, call: Call, up: Upstream, route: string, s: State)
    requires !cfg.killSwitch && call.auth.Err?
    ensures CreateSpec(cfg, call, up, route, s) == (AuthFailure(call.auth.error), s)
    ensures ContinueSpec(cfg, call, up, route, s) == (AuthFailure(call.auth.error), s)
    ensures !call.auth.error.AppErr? ==> AuthFailure(call.auth.error).status == 401
  {
  }

  /** Without a policy every handler fails closed with the `AppError`
      `POLICY_UNAVAILABLE`, answered 503 with its code. */
  lemma PolicyFailsClosed(cfg: Config, call: Call, up: Upstream, route: string, s: State)
    requires !cfg.killSwitch && call.auth.Ok? && call.policy.None?
    ensures CreateSpec(cfg, call, up, route, s) == (Caught(PolicyUnavailable(), []), s)
    ensures ContinueSpec(cfg, call, up, route, s) == (Caught(PolicyUnavailable(), []), s)
    ensures Caught(PolicyUnavailable(), []).status == 503
    ensures Caught(PolicyUnavailable(), []).body.error.code == Some("POLICY_UNAVAILABLE")
  {
  }

  /** Illustrate meets the same first three gates: the kill switch, the
      verification and the policy, each answered without a change. */
  lemma IllustrateEarlyExits(cfg: Config, call: Call, up: Upstream, route: string, s: State)
    ensures cfg.killSwitch ==> IllustrateSpec(cfg, call, up, route, s) == (Disabled(), s)
    ensures !cfg.killSwitch && call.auth.Err? ==> IllustrateSpec(cfg, call, up, route, s) == (AuthFailure(call.auth.error), s)
    ensures !cfg.killSwitch && call.auth.Ok? && call.policy.None? ==>
      IllustrateSpec(cfg, call, up, route, s) == (Caught(PolicyUnavailable(), []), s)
  {
  }

  /** With story generation switched off, create and continue answer 503
      and record one blocked audit (when there is a Firestore handle);
      no quota is consumed. */
  lemma GenerationSwitchedOff(cfg: Config, call: Call, up: Upstream, route: string, s: State)
    requires !cfg.killSwitch && call.auth.Ok? && call.policy.Some? && !call.policy.value.enableStoryGeneration
    ensures var rec := Store.AuditRecord(StoryEngine.Rid("req", call.requestUuid), call.auth.value.uid, route,
                                         true, Some(GenerationDisabled), None);
      var t := if cfg.hasFirestore then s.(audits := s.audits[rec.requestId := Store.AuditDoc(rec, call.now)]) else s;
      && CreateSpec(cfg, call, up, route, s) == (Disabled(), t)
      && ContinueSpec(cfg, call, up, route, s) == (Disabled(), t)
  {
  }

  /** The gates let a request through exactly when it is verified, a policy
      exists, generation is on (where checked), the IP quota and then the
      UID quota pass and the body is within the cap. */
  lemma GateAdmits(cfg: Config, call: Call, route: string, checkGeneration: bool, s: State)
    ensures var g := GateSpec(cfg, call, route, checkGeneration, s);
      g.0.Next? <==>
        && call.auth.Ok? && call.policy.Some?
        && (checkGeneration ==> call.policy.value.enableStoryGeneration)
        && ServerHelpers.TakeSpec(s.ipBuckets, ClientIp(call), call.policy.value.ipRatePerMin, call.now).0
        && ServerHelpers.TakeSpec(s.uidBuckets, call.auth.value.uid, call.policy.value.uidRatePerMin, call.now).0
        && !OverCap(call.contentLength, call.policy.value)
    ensures var g := GateSpec(cfg, call, route, checkGeneration, s);
      g.0.Next? ==> (g.0.value == Admitted(call.auth.value.uid, call.policy.value)
                     && g.1.usage == s.usage && g.1.stories == s.stories && g.1.audits == s.audits)
  {
  }

  /** A request refused by the IP quota is answered 429 and leaves every
      bucket as it was: the UID quota is not consumed. */
  lemma IpQuotaRefusal(cfg: Config, call: Call, route: string, checkGeneration: bool, s: State)
    requires call.auth.Ok? && call.policy.Some?
    requires checkGeneration ==> call.policy.value.enableStoryGeneration
    requires !ServerHelpers.TakeSpec(s.ipBuckets, ClientIp(call), call.policy.value.ipRatePerMin, call.now).0
    ensures GateSpec(cfg, call, route, checkGeneration, s) == (Stop(TooMany()), s)
    ensures TooMany().status == 429
  {
  }

  /** A request refused by the UID quota is answered 429 after its IP has
      been counted; the UID buckets stay as they were. */
  lemma UidQuotaRefusal(cfg: Config, call: Call, route: string, checkGeneration: bool, s: State)
    requires call.auth.Ok? && call.policy.Some?
    requires checkGeneration ==> call.policy.value.enableStoryGeneration
    requires ServerHelpers.TakeSpec(s.ipBuckets, ClientIp(call), call.policy.value.ipRatePerMin, call.now).0
    requires !ServerHelpers.TakeSpec(s.uidBuckets, call.auth.value.uid, call.policy.value.uidRatePerMin, call.now).0
    ensures var ip := ServerHelpers.TakeSpec(s.ipBuckets, ClientIp(call), call.policy.value.ipRatePerMin, call.now);
      GateSpec(cfg, call, route, checkGeneration, s) == (Stop(TooMany()), s.(ipBuckets := ip.1))
  {
  }

  /** The body cap is strict: a content length of exactly `max_body_kb`
      KiB passes, one byte more is answered 413. */
  lemma BodyCapBoundary(cfg: Config, call: Call, route: string, checkGeneration: bool, s: State)
    requires call.auth.Ok? && call.policy.Some?
    requires checkGeneration ==> call.policy.value.enableStoryGeneration
    requires ServerHelpers.TakeSpec(s.ipBuckets, ClientIp(call), call.policy.value.ipRatePerMin, call.now).0
    requires ServerHelpers.TakeSpec(s.uidBuckets, call.auth.value.uid, call.policy.value.uidRatePerMin, call.now).0
    ensures var cap := call.policy.value.maxBodyKb * 1024;
      && GateSpec(cfg, call.(contentLength := Some(cap)), route, checkGeneration, s).0
         == Next(Admitted(call.auth.value.uid, call.policy.value))
      && GateSpec(cfg, call.(contentLength := Some(cap + 1)), route, checkGeneration, s).0 == Stop(TooLarge())
      && GateSpec(cfg, call.(contentLength := None), route, checkGeneration, s).0.Next?
  {
  }

  /** Illustrate does not look at the generation switch. */
  lemma IllustrateIgnoresGenerationSwitch(cfg: Config, call: Call, route: string, s: State, p: Policy.RuntimePolicy, on: bool)
    requires call.policy == Some(p)
    ensures var other := call.(policy := Some(p.(enableStoryGeneration := on)));
      && GateSpec(cfg, call, route, false, s).1 == GateSpec(cfg, other, route, false, s).1
      && (GateSpec(cfg, call, route, false, s).0.Next? <==> GateSpec(cfg, other, route, false, s).0.Next?)
  {
    var q := p.(enableStoryGeneration := on);
    var other := call.(policy := Some(q));
    assert ClientIp(other) == ClientIp(call);
    assert q.ipRatePerMin == p.ipRatePerMin && q.uidRatePerMin == p.uidRatePerMin;
    assert OverCap(other.contentLength, q) == OverCap(call.contentLength, p);
  }

  // ---------------------------------------------------------------------
  // Daily limit
  // ---------------------------------------------------------------------

  lemma LimitMessageMatches()
    ensures Includes(MessageOf(Store.DailyLimitExceeded), Store.DailyLimitCode)
  {
    var m := Store.DailyLimitCode;
    assert OccursAt(m, m, 0);
  }

  /** When the day's count has reached the limit the request is answered
      429, the counters stay as they were, and exactly one audit record is
      added: blocked, with reason `daily_limit_exceeded`. */
  lemma DailyLimitRefusal(cfg: Config, call: Call, up: Upstream, route: string, adm: Admitted,
                          clientRequestId: Option<string>, storyId: Option<string>, s: State)
    requires cfg.hasFirestore && up.dailyFault.None?
    requires Store.Count(s.usage, Store.UsageKey(adm.uid, ServerHelpers.Yyyymmdd(call.day))) >= adm.policy.dailyStoryLimit
    ensures var requestId := StoryEngine.RequestIdOf(clientRequestId, call.requestUuid);
      var rec := Store.AuditRecord(requestId, adm.uid, route, true, Some(DailyLimitReason), storyId);
      DailySpec(cfg, call, up, route, adm, clientRequestId, storyId, s)
        == (Stop(DailyExceeded()), s.(audits := s.audits[requestId := Store.AuditDoc(rec, call.now)]))
    ensures DailyExceeded().status == 429
  {
    LimitMessageMatches();
  }

  /** Below the limit the request goes on and the day's count grows by one. */
  lemma DailyLimitPass(cfg: Config, call: Call, up: Upstream, route: string, adm: Admitted,
                       clientRequestId: Option<string>, storyId: Option<string>, s: State)
    requires cfg.hasFirestore && up.dailyFault.None?
    requires Store.Count(s.usage, Store.UsageKey(adm.uid, ServerHelpers.Yyyymmdd(call.day))) < adm.policy.dailyStoryLimit
    ensures var key := Store.UsageKey(adm.uid, ServerHelpers.Yyyymmdd(call.day));
      DailySpec(cfg, call, up, route, adm, clientRequestId, storyId, s)
        == (Next(()), s.(usage := s.usage[key := Store.Count(s.usage, key) + 1]))
  {
  }

  /** Any other store failure is rethrown unchanged; one whose message
      names the limit is treated as the limit. */
  lemma DailyFaults(cfg: Config, call: Call, up: Upstream, route: string, adm: Admitted,
                    clientRequestId: Option<string>, storyId: Option<string>, s: State)
    requires cfg.hasFirestore && up.dailyFault.Some?
    ensures var d := DailySpec(cfg, call, up, route, adm, clientRequestId, storyId, s);
      && (!Contains(MessageOf(up.dailyFault.value), Store.DailyLimitCode) ==> d == (Raise(up.dailyFault.value, []), s))
      && (Contains(MessageOf(up.dailyFault.value), Store.DailyLimitCode) ==>
            d.0 == Stop(DailyExceeded()) && d.1.usage == s.usage && |d.1.audits.Keys - s.audits.Keys| <= 1)
  {
  }

  /** A store without a Firestore handle fails the daily step with 503
      `STORE_UNAVAILABLE`. */
  lemma DailyWithoutStore(cfg: Config, call: Call, up: Upstream, route: string, adm: Admitted,
                          clientRequestId: Option<string>, storyId: Option<string>, s: State)
    requires !cfg.hasFirestore
    ensures DailySpec(cfg, call, up, route, adm, clientRequestId, storyId, s) == (Raise(StoreUnavailable(), []), s)
    ensures Caught(StoreUnavailable(), []).status == 503
  {
  }

  // ---------------------------------------------------------------------
  // The answer to a moderation block
  // ---------------------------------------------------------------------

  /** With ids the schema accepts, the answer to a block is the stub for the
      given chapter, 200, exactly when the index is within 0..99; otherwise
      the schema's refusal, 400. The block headers are set either way. */
  lemma BlockedStub(kind: string, requestId: string, storyId: string, lang: Lang, chapterIndex: int)
    requires 1 <= |Trim(requestId)| <= 128 && 1 <= |Trim(storyId)| <= 128
    ensures var r := BlockedReply(kind, requestId, storyId, lang, chapterIndex);
      && r.headers == BlockedHeaders(kind)
      && (r.status == 200 <==> 0 <= chapterIndex <= 99)
      && (r.status == 200 ==> r.body.StoryOut? && r.body.story.chapterIndex == chapterIndex
                              && r.body.story.storyId == Trim(storyId) && r.body.story.requestId == Trim(requestId)
                              && r.body.story.title == ServerHelpers.StubTitle(lang)
                              && r.body.story.text == ServerHelpers.StubText(lang))
      && (r.status != 200 ==> r.status == 400)
  {
    ServerHelpers.SafeStubShape(requestId, storyId, lang, chapterIndex);
  }

  // ---------------------------------------------------------------------
  // Moderation blocks on create
  // ---------------------------------------------------------------------

  /** A refused create input is answered 200 with the stub for chapter 0
      of a fresh story and the block headers; nothing is stored, no quota
      moves, and one blocked audit is written exactly when the store is on. */
  lemma CreateInputBlocked(cfg: Config, call: Call, up: Upstream, route: string, adm: Admitted,
                           body: CreateRequest, s: State)
    requires !Moderation.ModerateText(CreateInput(body, up.numText), adm.policy.maxInputChars).allowed
    requires body.requestId.Some? ==> |body.requestId.value| <= 64
    requires StoryEngine.IsUuid(call.requestUuid) && StoryEngine.IsUuid(call.storyUuid)
    ensures var c := CreateAdmitted(cfg, call, up, route, adm, body, s);
      && c.0.status == 200 && c.0.headers == BlockedHeaders(InputBlock)
      && c.0.body.StoryOut? && c.0.body.story.chapterIndex == 0
      && c.0.body.story.requestId == Trim(StoryEngine.RequestIdOf(body.requestId, call.requestUuid))
      && c.0.body.story.storyId == Trim(StoryEngine.Rid("story", call.storyUuid))
  {
    var requestId := StoryEngine.RequestIdOf(body.requestId, call.requestUuid);
    var storyId := StoryEngine.Rid("story", call.storyUuid);
    var lang := ServerHelpers.GetLangOrDefault(ServerHelpers.LangText(body.storyLang));
    assert CreateAdmitted(cfg, call, up, route, adm, body, s).0 == BlockedReply(InputBlock, requestId, storyId, lang, 0);
    StoryEngine.RequestIdWithinSchema(body.requestId, call.requestUuid);
    StoryEngine.StoryIdWithinSchema(call.storyUuid);
    BlockedStub(InputBlock, requestId, storyId, lang, 0);
  }

  /** A create refused by input moderation stores no story and counts no
      usage; the refusal is audited unless the store is switched off or
      missing. */
  lemma CreateInputBlockedState(cfg: Config, call: Call, up: Upstream, route: string, adm: Admitted,
                                body: CreateRequest, s: State)
    requires !Moderation.ModerateText(CreateInput(body, up.numText), adm.policy.maxInputChars).allowed
    ensures var c := CreateAdmitted(cfg, call, up, route, adm, body, s);
      var requestId := StoryEngine.RequestIdOf(body.requestId, call.requestUuid);
      && c.1.stories == s.stories && c.1.usage == s.usage
      && c.1.ipBuckets == s.ipBuckets && c.1.uidBuckets == s.uidBuckets
      && (cfg.storeDisabled || !cfg.hasFirestore ==> c.1 == s)
      && (!cfg.storeDisabled && cfg.hasFirestore ==>
            c.1.audits.Keys == s.audits.Keys + {requestId} && c.1.audits[requestId].record.blocked)
  {
    var requestId := StoryEngine.RequestIdOf(body.requestId, call.requestUuid);
    var mod := Moderation.ModerateText(CreateInput(body, up.numText), adm.policy.maxInputChars);
    var rec := Blocked(route, adm.uid, requestId, BlockReason(InputBlock, mod.reason), None);
    assert CreateAdmitted(cfg, call, up, route, adm, body, s).1 == Audited(cfg, !cfg.storeDisabled, rec, call.now, s);
    AuditedChanges(cfg, !cfg.storeDisabled, rec, call.now, s);
  }

  /** The members moderated after the idea. */
  function SelectionMembers(body: CreateRequest): seq<(string, Json)> {
    [("hero", JStr(HeroOf(body.selection))), ("location", JStr(LocationOf(body.selection))),
     ("storyType", JStr(StyleOf(body.selection)))]
  }

  function IdeaOpen(): string { "{" + JsonText.Quote("idea") + ":" }

  function IdeaClose(body: CreateRequest, numText: real -> string): string {
    "," + JsonText.RenderMemberList(SelectionMembers(body), numText) + "}"
  }

  lemma CreateInputOpensWithIdea(body: CreateRequest, numText: real -> string)
    ensures CreateInput(body, numText) == IdeaOpen() + JsonText.Quote(body.idea.GetOr("")) + IdeaClose(body, numText)
  {
    var idea := body.idea.GetOr("");
    var ms := [("idea", JStr(idea))] + SelectionMembers(body);
    assert ms[0] == ("idea", JStr(idea)) && |ms| > 1;
    assert ms[1..] == SelectionMembers(body);
    assert JsonText.Render(JStr(idea), numText) == JsonText.Quote(idea);
    var rest := JsonText.RenderMemberList(SelectionMembers(body), numText);
    assert JsonText.RenderMemberList(ms, numText) == JsonText.Quote("idea") + ":" + JsonText.Quote(idea) + "," + rest;
    IdeaRegroup(JsonText.Quote("idea"), JsonText.Quote(idea), rest);
  }

  lemma IdeaRegroup(q: string, v: string, r: string)
    ensures "{" + (q + ":" + v + "," + r) + "}" == ("{" + q + ":") + v + ("," + r + "}")
  {
  }

  lemma Regroup(a: string, b: string, c: string, d: string, e: string)
    ensures a + (b + c + d) + e == (a + b) + c + (d + e)
  {
  }

  /** A word of a rule needs no JSON escaping. */
  lemma BannedWordPlain(k: nat, a: nat)
    requires k < |Moderation.BannedPatterns| && a < |Moderation.BannedPatterns[k].alternatives|
    requires |Moderation.BannedPatterns[k].alternatives[a]| == 1
    ensures var w := Moderation.BannedPatterns[k].alternatives[a][0];
      forall i :: 0 <= i < |w| ==> JsonText.Plain(w[i])
  {
    Moderation.BannedPatternsWellFormed();
    assert Moderation.WellFormedRule(Moderation.BannedPatterns[k]);
    assert Moderation.WellFormedPhrase(Moderation.BannedPatterns[k].alternatives[a]);
  }

  /** A single banned word given as the idea is enough to refuse a create,
      whatever the limit on input length: the idea is rendered between
      quotes, which are not word characters, so the word stands alone. */
  lemma BannedIdeaBlocksCreate(body: CreateRequest, numText: real -> string, maxChars: int, k: nat, a: nat)
    requires k < |Moderation.BannedPatterns| && a < |Moderation.BannedPatterns[k].alternatives|
    requires |Moderation.BannedPatterns[k].alternatives[a]| == 1
    requires body.idea == Some(Moderation.BannedPatterns[k].alternatives[a][0])
    ensures !Moderation.ModerateText(CreateInput(body, numText), maxChars).allowed
  {
    var w := Moderation.BannedPatterns[k].alternatives[a][0];
    BannedWordPlain(k, a);
    JsonText.EscapePlain(w);
    CreateInputOpensWithIdea(body, numText);
    assert JsonText.Quote(w) == "\"" + w + "\"";
    Regroup(IdeaOpen(), "\"", w, "\"", IdeaClose(body, numText));
    var x := IdeaOpen() + "\"";
    var y := "\"" + IdeaClose(body, numText);
    assert CreateInput(body, numText) == x + w + y;
    assert x[|x| - 1] == '"';
    assert y[0] == '"';
    if |x + w + y| <= maxChars {
      Moderation.WholeWordBlocks(x, y, k, a, maxChars);
    }
  }

  /** A refused create output is answered with the stub under the block
      headers; the story is not stored. */
  lemma CreateOutputBlocked(cfg: Config, call: Call, up: Upstream, route: string, adm: Admitted,
                            lang: Lang, out: AgentResponse, s: State)
    requires !Moderation.ModerateText(OutputText(out), adm.policy.maxOutputChars).allowed
    requires 1 <= |Trim(out.requestId)| <= 128 && 1 <= |Trim(out.storyId)| <= 128
    ensures var c := CreateGenerated(cfg, call, up, route, adm, lang, out, s);
      && c.0.status == 200 && c.0.headers == BlockedHeaders(OutputBlock)
      && c.0.body.StoryOut? && c.0.body.story.storyId == Trim(out.storyId) && c.0.body.story.chapterIndex == 0
      && c.1.stories == s.stories && c.1.usage == s.usage
  {
    BlockedStub(OutputBlock, out.requestId, out.storyId, lang, 0);
  }

  /** A create that passes output moderation with the store on saves the
      story under its id, with the generated chapter as its only chapter,
      touching no other story, and audits the request as passed. */
  lemma CreatePersists(cfg: Config, call: Call, up: Upstream, route: string, adm: Admitted,
                       lang: Lang, out: AgentResponse, s: State)
    requires Moderation.ModerateText(OutputText(out), adm.policy.maxOutputChars).allowed
    requires !cfg.storeDisabled && cfg.hasFirestore && up.upsertFault.None?
    ensures var c := CreateGenerated(cfg, call, up, route, adm, lang, out, s);
      && c.0 == Response(200, [], StoryOut(out))
      && c.1.stories.Keys == s.stories.Keys + {out.storyId}
      && c.1.stories[out.storyId].uid == adm.uid && c.1.stories[out.storyId].title == out.title
      && c.1.stories[out.storyId].chapters == [ChapterOf(out)]
      && c.1.stories[out.storyId].latestChapterIndex == out.chapterIndex
      && (forall k :: k in s.stories && k != out.storyId ==> c.1.stories[k] == s.stories[k])
      && out.requestId in c.1.audits && !c.1.audits[out.requestId].record.blocked
      && c.1.usage == s.usage
  {
  }

  /** The stories change only when a create answers 200 with the generated
      story: then exactly that story is written and nothing else. */
  predicate StoresOnlyOnSuccess(s: State, c: (Response, State)) {
    c.1.stories == s.stories
    || (&& c.0.status == 200 && c.0.headers == [] && c.0.body.StoryOut?
        && c.0.body.story.storyId in c.1.stories
        && c.1.stories == s.stories[c.0.body.story.storyId := c.1.stories[c.0.body.story.storyId]])
  }

  lemma CreateGeneratedStores(cfg: Config, call: Call, up: Upstream, route: string, adm: Admitted,
                              lang: Lang, out: AgentResponse, s: State)
    ensures StoresOnlyOnSuccess(s, CreateGenerated(cfg, call, up, route, adm, lang, out, s))
  {
  }

  lemma CreateAdmittedStores(cfg: Config, call: Call, up: Upstream, route: string, adm: Admitted,
                             body: CreateRequest, s: State)
    ensures StoresOnlyOnSuccess(s, CreateAdmitted(cfg, call, up, route, adm, body, s))
  {
    var lang := ServerHelpers.GetLangOrDefault(ServerHelpers.LangText(body.storyLang));
    var r := StoryEngine.GenerateCreate(body.requestId, ImageEnabled(body.image), cfg.mockEngine,
                                        call.requestUuid, call.storyUuid, up.reply, up.jsonParse);
    if r.Ok? {
      CreateGeneratedStores(cfg, call, up, route, adm, lang, r.value, s);
    }
  }

  lemma CreateParsedStores(cfg: Config, call: Call, up: Upstream, route: string, adm: Admitted,
                           body: CreateRequest, s: State)
    ensures StoresOnlyOnSuccess(s, CreateParsed(cfg, call, up, route, adm, body, s))
  {
    if cfg.storeDisabled {
      CreateAdmittedStores(cfg, call, up, route, adm, body, s);
    } else {
      var d := DailySpec(cfg, call, up, route, adm, body.requestId, None, s);
      DailyKeepsStories(cfg, call, up, route, adm, body.requestId, None, s);
      CreateParsedUnfold(cfg, call, up, route, adm, body, s);
      if d.0.Next? {
        CreateAdmittedStores(cfg, call, up, route, adm, body, d.1);
        StoresStep(s, d.1, CreateAdmitted(cfg, call, up, route, adm, body, d.1));
      }
    }
  }

  lemma CreateParsedUnfold(cfg: Config, call: Call, up: Upstream, route: string, adm: Admitted,
                           body: CreateRequest, s: State)
    requires !cfg.storeDisabled
    ensures var d := DailySpec(cfg, call, up, route, adm, body.requestId, None, s);
      && (d.0.Next? ==> CreateParsed(cfg, call, up, route, adm, body, s) == CreateAdmitted(cfg, call, up, route, adm, body, d.1))
      && (!d.0.Next? ==> CreateParsed(cfg, call, up, route, adm, body, s).1 == d.1)
  {
  }

  lemma {:induction false} CreateStoresOnlyOnSuccess(cfg: Config, call: Call, up: Upstream, route: string, s: State)
    ensures StoresOnlyOnSuccess(s, CreateSpec(cfg, call, up, route, s))
  {
    if !cfg.killSwitch {
      var g := GateSpec(cfg, call, route, true, s);
      GateKeepsStories(cfg, call, route, true, s);
      CreateSpecUnfold(cfg, call, up, route, s);
      if g.0.Next? && ParseCreate(call.body).Ok? {
        var body := ParseCreate(call.body).value;
        CreateParsedStores(cfg, call, up, route, g.0.value, body, g.1);
        StoresStep(s, g.1, CreateParsed(cfg, call, up, route, g.0.value, body, g.1));
      }
    }
  }

  lemma CreateSpecUnfold(cfg: Config, call: Call, up: Upstream, route: string, s: State)
    requires !cfg.killSwitch
    ensures var g := GateSpec(cfg, call, route, true, s);
      && (g.0.Next? && ParseCreate(call.body).Ok? ==>
            CreateSpec(cfg, call, up, route, s) == CreateParsed(cfg, call, up, route, g.0.value, ParseCreate(call.body).value, g.1))
      && (!(g.0.Next? && ParseCreate(call.body).Ok?) ==> CreateSpec(cfg, call, up, route, s).1 == g.1)
  {
  }

  /** The gates never touch the stories. */
  lemma GateKeepsStories(cfg: Config, call: Call, route: string, checkGeneration: bool, s: State)
    ensures GateSpec(cfg, call, route, checkGeneration, s).1.stories == s.stories
  {
  }

  /** The daily-limit step never touches the stories. */
  lemma DailyKeepsStories(cfg: Config, call: Call, up: Upstream, route: string, adm: Admitted,
                          clientRequestId: Option<string>, storyId: Option<string>, s: State)
    ensures DailySpec(cfg, call, up, route, adm, clientRequestId, storyId, s).1.stories == s.stories
  {
  }

  /** A stage that keeps the stories passes the property on. */
  lemma StoresStep(s: State, t: State, c: (Response, State))
    requires t.stories == s.stories && StoresOnlyOnSuccess(t, c)
    ensures StoresOnlyOnSuccess(s, c)
  {
  }

  // ---------------------------------------------------------------------
  // Continue
  // ---------------------------------------------------------------------

  /** Continue is answered 404 for a story that does not exist and 403 for
      one owned by somebody else, in that order; neither changes anything. */
  lemma ContinueNeedsOwner(cfg: Config, call: Call, up: Upstream, route: string, adm: Admitted,
                           body: ContinueRequest, s: State)
    ensures body.storyId !in s.stories ==> ContinueLoaded(cfg, call, up, route, adm, body, s) == (NotFound(), s)
    ensures body.storyId in s.stories && s.stories[body.storyId].uid != adm.uid ==>
      ContinueLoaded(cfg, call, up, route, adm, body, s) == (Forbidden(), s)
    ensures NotFound().status == 404 && Forbidden().status == 403
  {
  }

  /** A refused continue input is answered with the stub for chapter
      `next` under the block headers: 200 when `next` is within 0..99,
      otherwise the schema's 400. The stories do not change and one blocked
      audit is written. */
  lemma ContinueRefusedReply(cfg: Config, call: Call, route: string, adm: Admitted, body: ContinueRequest,
                             lang: Lang, next: int, reason: Option<string>, s: State)
    requires body.requestId.Some? ==> |body.requestId.value| <= 64
    requires StoryEngine.IsUuid(call.requestUuid) && 1 <= |Trim(body.storyId)| <= 128
    ensures var c := ContinueRefused(cfg, call, route, adm, body, lang, next, reason, s);
      && c.0.headers == BlockedHeaders(InputBlock)
      && (c.0.status == 200 <==> 0 <= next <= 99)
      && (c.0.status == 200 ==> c.0.body.StoryOut? && c.0.body.story.chapterIndex == next
                                && c.0.body.story.storyId == Trim(body.storyId))
      && (c.0.status != 200 ==> c.0.status == 400)
  {
    var requestId := StoryEngine.RequestIdOf(body.requestId, call.requestUuid);
    var c := ContinueRefused(cfg, call, route, adm, body, lang, next, reason, s);
    assert c.0 == BlockedReply(InputBlock, requestId, body.storyId, lang, next);
    StoryEngine.RequestIdWithinSchema(body.requestId, call.requestUuid);
    BlockedStub(InputBlock, requestId, body.storyId, lang, next);
  }

  /** An audit write touches the audit collection only, and only when the
      write is wanted and a store is configured. */
  lemma AuditedChanges(cfg: Config, write: bool, rec: Store.AuditRecord, now: int, s: State)
    ensures var t := Audited(cfg, write, rec, now, s);
      && t.stories == s.stories && t.usage == s.usage
      && t.ipBuckets == s.ipBuckets && t.uidBuckets == s.uidBuckets
      && (write && cfg.hasFirestore ==>
            t.audits.Keys == s.audits.Keys + {rec.requestId} && t.audits[rec.requestId].record == rec)
      && (!(write && cfg.hasFirestore) ==> t == s)
  {
  }

  /** A refused continue changes no story and no counter; with a store it
      records the refusal under the request id. */
  lemma ContinueRefusedState(cfg: Config, call: Call, route: string, adm: Admitted, body: ContinueRequest,
                             lang: Lang, next: int, reason: Option<string>, s: State)
    ensures var c := ContinueRefused(cfg, call, route, adm, body, lang, next, reason, s);
      var requestId := StoryEngine.RequestIdOf(body.requestId, call.requestUuid);
      && c.1.stories == s.stories && c.1.usage == s.usage
      && c.1.ipBuckets == s.ipBuckets && c.1.uidBuckets == s.uidBuckets
      && (cfg.hasFirestore ==> c.1.audits.Keys == s.audits.Keys + {requestId} && c.1.audits[requestId].record.blocked)
      && (!cfg.hasFirestore ==> c.1 == s)
  {
    var requestId := StoryEngine.RequestIdOf(body.requestId, call.requestUuid);
    var rec := Blocked(route, adm.uid, requestId, BlockReason(InputBlock, reason), Some(body.storyId));
    assert ContinueRefused(cfg, call, route, adm, body, lang, next, reason, s).1 == Audited(cfg, true, rec, call.now, s);
    AuditedChanges(cfg, true, rec, call.now, s);
  }

  /** Input moderation on continue answers for the chapter after the one
      the stored story ends at (or the requested one, for a story without
      chapters). */
  lemma ContinueInputBlocked(cfg: Config, call: Call, up: Upstream, route: string, adm: Admitted,
                             body: ContinueRequest, data: Store.StoryDoc, s: State)
    requires !Moderation.ModerateText(ContinueInput(body, up.numText), adm.policy.maxInputChars).allowed
    ensures var lang := ServerHelpers.GetLangOrDefault(ServerHelpers.LangText(body.storyLang));
      var mod := Moderation.ModerateText(ContinueInput(body, up.numText), adm.policy.maxInputChars);
      ContinueOwned(cfg, call, up, route, adm, body, data, s)
        == ContinueRefused(cfg, call, route, adm, body, lang, NextIndex(data.chapters, body.chapterIndex), mod.reason, s)
  {
  }

  /** The generated chapter is the one after the chapter continued from. */
  lemma ContinueNextChapter(cfg: Config, call: Call, up: Upstream, route: string, adm: Admitted,
                            body: ContinueRequest, lang: Lang, data: Store.StoryDoc, base: int, s: State)
    ensures var c := ContinueDraft(cfg, call, up, route, adm, body, lang, data, base, s);
      c.0.headers == [] && c.0.body.StoryOut? ==> c.0.body.story.chapterIndex == base + 1
  {
    var r := StoryEngine.GenerateContinue(body.requestId, body.storyId, Some(base), cfg.mockEngine,
                                          call.requestUuid, up.reply, up.jsonParse);
    if r.Ok? {
      ContinueGeneratedReply(cfg, call, up, route, adm, lang, data, r.value, s);
    }
  }

  /** A continue that passes output moderation rewrites the story with the
      new chapter appended to the stored ones, keeping the stored title and
      the owner, and touching no other story. */
  lemma ContinueAppends(cfg: Config, call: Call, up: Upstream, route: string, adm: Admitted,
                        lang: Lang, data: Store.StoryDoc, out: AgentResponse, s: State)
    requires Moderation.ModerateText(OutputText(out), adm.policy.maxOutputChars).allowed
    requires up.upsertFault.None?
    ensures var c := ContinueGenerated(cfg, call, up, route, adm, lang, data, out, s);
      && c.0 == Response(200, [], StoryOut(out))
      && c.1.stories.Keys == s.stories.Keys + {out.storyId}
      && c.1.stories[out.storyId].chapters == data.chapters + [ChapterOf(out)]
      && |c.1.stories[out.storyId].chapters| == |data.chapters| + 1
      && c.1.stories[out.storyId].title == data.title && c.1.stories[out.storyId].uid == adm.uid
      && c.1.stories[out.storyId].latestChapterIndex == out.chapterIndex
      && (forall k :: k in s.stories && k != out.storyId ==> c.1.stories[k] == s.stories[k])
      && c.1.usage == s.usage
  {
  }

  /** A refused continue output leaves the stories as they were. */
  lemma ContinueOutputBlocked(cfg: Config, call: Call, up: Upstream, route: string, adm: Admitted,
                              lang: Lang, data: Store.StoryDoc, out: AgentResponse, s: State)
    requires !Moderation.ModerateText(OutputText(out), adm.policy.maxOutputChars).allowed
    requires 1 <= |Trim(out.requestId)| <= 128 && 1 <= |Trim(out.storyId)| <= 128
    requires 0 <= out.chapterIndex <= 99
    ensures var c := ContinueGenerated(cfg, call, up, route, adm, lang, data, out, s);
      && c.0.status == 200 && c.0.headers == BlockedHeaders(OutputBlock)
      && c.0.body.StoryOut? && c.0.body.story.chapterIndex == out.chapterIndex
      && c.1.stories == s.stories && c.1.usage == s.usage
  {
    BlockedStub(OutputBlock, out.requestId, out.storyId, lang, out.chapterIndex);
  }

  /** Continue answers with no headers and a story only when it sends the
      generated one. */
  lemma ContinueGeneratedReply(cfg: Config, call: Call, up: Upstream, route: string, adm: Admitted,
                               lang: Lang, data: Store.StoryDoc, out: AgentResponse, s: State)
    ensures var c := ContinueGenerated(cfg, call, up, route, adm, lang, data, out, s);
      c.0.headers == [] && c.0.body.StoryOut? ==> c.0.body.story == out
  {
  }

  lemma ContinueGeneratedStores(cfg: Config, call: Call, up: Upstream, route: string, adm: Admitted,
                                lang: Lang, data: Store.StoryDoc, out: AgentResponse, s: State)
    ensures StoresOnlyOnSuccess(s, ContinueGenerated(cfg, call, up, route, adm, lang, data, out, s))
  {
  }

  lemma ContinueDraftStores(cfg: Config, call: Call, up: Upstream, route: string, adm: Admitted,
                            body: ContinueRequest, lang: Lang, data: Store.StoryDoc, base: int, s: State)
    ensures StoresOnlyOnSuccess(s, ContinueDraft(cfg, call, up, route, adm, body, lang, data, base, s))
  {
    var r := StoryEngine.GenerateContinue(body.requestId, body.storyId, Some(base), cfg.mockEngine,
                                          call.requestUuid, up.reply, up.jsonParse);
    if r.Ok? {
      ContinueGeneratedStores(cfg, call, up, route, adm, lang, data, r.value, s);
    }
  }

  lemma ContinueOwnedStores(cfg: Config, call: Call, up: Upstream, route: string, adm: Admitted,
                            body: ContinueRequest, data: Store.StoryDoc, s: State)
    ensures StoresOnlyOnSuccess(s, ContinueOwned(cfg, call, up, route, adm, body, data, s))
  {
    var lang := ServerHelpers.GetLangOrDefault(ServerHelpers.LangText(body.storyLang));
    var base := BaseIndex(data.chapters, body.chapterIndex);
    ContinueDraftStores(cfg, call, up, route, adm, body, lang, data, base, s);
  }

  lemma ContinueParsedStores(cfg: Config, call: Call, up: Upstream, route: string, adm: Admitted,
                             body: ContinueRequest, s: State)
    ensures StoresOnlyOnSuccess(s, ContinueParsed(cfg, call, up, route, adm, body, s))
  {
    if !cfg.storeDisabled {
      var d := DailySpec(cfg, call, up, route, adm, body.requestId, Some(body.storyId), s);
      DailyKeepsStories(cfg, call, up, route, adm, body.requestId, Some(body.storyId), s);
      ContinueParsedUnfold(cfg, call, up, route, adm, body, s);
      if d.0.Next? && body.storyId in d.1.stories && d.1.stories[body.storyId].uid == adm.uid {
        var data := d.1.stories[body.storyId];
        ContinueOwnedStores(cfg, call, up, route, adm, body, data, d.1);
        StoresStep(s, d.1, ContinueOwned(cfg, call, up, route, adm, body, data, d.1));
      }
    }
  }

  lemma ContinueParsedUnfold(cfg: Config, call: Call, up: Upstream, route: string, adm: Admitted,
                             body: ContinueRequest, s: State)
    requires !cfg.storeDisabled
    ensures var d := DailySpec(cfg, call, up, route, adm, body.requestId, Some(body.storyId), s);
      && (d.0.Next? && body.storyId in d.1.stories && d.1.stories[body.storyId].uid == adm.uid ==>
            ContinueParsed(cfg, call, up, route, adm, body, s)
              == ContinueOwned(cfg, call, up, route, adm, body, d.1.stories[body.storyId], d.1))
      && (!(d.0.Next? && body.storyId in d.1.stories && d.1.stories[body.storyId].uid == adm.uid) ==>
            ContinueParsed(cfg, call, up, route, adm, body, s).1 == d.1)
  {
  }

  /** Continue, like create, changes the stories only when it answers 200
      with the generated chapter, and then only that story. */
  lemma {:induction false} ContinueStoresOnlyOnSuccess(cfg: Config, call: Call, up: Upstream, route: string, s: State)
    ensures StoresOnlyOnSuccess(s, ContinueSpec(cfg, call, up, route, s))
  {
    if !cfg.killSwitch {
      var g := GateSpec(cfg, call, route, true, s);
      GateKeepsStories(cfg, call, route, true, s);
      ContinueSpecUnfold(cfg, call, up, route, s);
      if g.0.Next? && ParseContinue(call.body).Ok? {
        var body := ParseContinue(call.body).value;
        ContinueParsedStores(cfg, call, up, route, g.0.value, body, g.1);
        StoresStep(s, g.1, ContinueParsed(cfg, call, up, route, g.0.value, body, g.1));
      }
    }
  }

  lemma ContinueSpecUnfold(cfg: Config, call: Call, up: Upstream, route: string, s: State)
    requires !cfg.killSwitch
    ensures var g := GateSpec(cfg, call, route, true, s);
      && (g.0.Next? && ParseContinue(call.body).Ok? ==>
            ContinueSpec(cfg, call, up, route, s) == ContinueParsed(cfg, call, up, route, g.0.value, ParseContinue(call.body).value, g.1))
      && (!(g.0.Next? && ParseContinue(call.body).Ok?) ==> ContinueSpec(cfg, call, up, route, s).1 == g.1)
  {
  }

  // ---------------------------------------------------------------------
  // Illustrate
  // ---------------------------------------------------------------------

  lemma PlaceholderFits()
    ensures 16 <= |Placeholder()| <= 200000
  {
  }

  /** An admitted illustrate request is always answered 200 with the
      placeholder image, marked disabled exactly when the policy switches
      illustrations off; the audit records it as blocked in that case, as
      passed otherwise, and nothing else changes. */
  lemma IllustratePlaceholder(cfg: Config, call: Call, route: string, adm: Admitted, body: IllustrateRequest, s: State)
    ensures var c := IllustrateAdmitted(cfg, call, route, adm, body, s);
      var requestId := StoryEngine.RequestIdOf(body.requestId, call.requestUuid);
      && c.0.status == 200 && c.0.headers == [] && c.0.body.ImageOut?
      && c.0.body.image.disabled == !adm.policy.enableIllustrations
      && c.0.body.image.base64 == Placeholder()
      && c.1.stories == s.stories && c.1.usage == s.usage
      && (!cfg.storeDisabled && cfg.hasFirestore ==>
            requestId in c.1.audits && c.1.audits[requestId].record.blocked == !adm.policy.enableIllustrations)
      && (cfg.storeDisabled || !cfg.hasFirestore ==> c.1 == s)
  {
    var enabled := adm.policy.enableIllustrations;
    var reason := if enabled then "Illustration generation is not configured yet" else "Illustrations are disabled by policy";
    PlaceholderFits();
    IllustrationRoundTrip(IllustrationResponse(!enabled, reason, Placeholder()));
  }

  // ---------------------------------------------------------------------
  // POST / dispatch
  // ---------------------------------------------------------------------

  /** Only `POST /` reads the body's action; on the other routes the handler
      runs with the route's own path, and on `/` with `/`. */
  lemma PostRoutes(path: string, body: Json, other: Json, numText: real -> string)
    ensures path != "/" ==> PostTarget(path, body, numText) == PostTarget(path, other, numText)
    ensures PostTarget(path, body, numText).Some? && PostTarget(path, body, numText).value.Run? ==>
      PostTarget(path, body, numText).value.route == path
    ensures PostTarget(path, body, numText).Some? <==>
      path in {"/", "/v1/story/create", "/v1/story/continue", "/v1/story/illustrate"}
  {
  }

  /** The action is read after trimming and lower-casing. */
  lemma ActionIsNormalised(fields: map<string, Json>, t: string, numText: real -> string)
    requires "action" in fields && fields["action"] == JStr(t)
    ensures Action(JObj(fields), numText) == ToLower(Trim(t))
  {
    assert Member(JObj(fields), "action") == Some(JStr(t));
    assert JsText(JStr(t), numText) == t;
  }

  /** A body without an action is not dispatched. */
  lemma NoActionUnsupported(body: Json, numText: real -> string)
    requires body.JObj? && "action" !in body.fields
    ensures DispatchTarget(Action(body, numText)) == Answer(Unsupported())
  {
    TrimOfTrimmed("");
  }
}
