/** Post-processing of what the story model returns: fence stripping before
    JSON parsing, schema validation, and the overrides by which the server
    keeps control of identifiers, chapter numbering, image settings and
    the number of choices. The model call itself is a parameter: its reply
    text, or the error it raised. */
module StoryEngine {
  import opened Base
  import opened Text
  import opened Errors
  import opened Schemas

  // ---------------------------------------------------------------------
  // Identifiers
  // ---------------------------------------------------------------------

  predicate IsUuidChar(c: char) { '0' <= c <= '9' || 'a' <= c <= 'f' || c == '-' }

  /** The shape of `randomUUID()`: 36 lower-case hex digits and dashes. */
  predicate IsUuid(u: string) { |u| == 36 && forall i :: 0 <= i < |u| ==> IsUuidChar(u[i]) }

  /** `rid(prefix)`, with the UUID given. */
  function Rid(prefix: string, uuid: string): string { prefix + "_" + uuid }

  /** `request.requestId?.trim() || rid('req')`: the client's id when it is
      not blank, else a fresh one. */
  function RequestIdOf(clientId: Option<string>, uuid: string): (r: string)
    ensures clientId.Some? && !AllSpace(clientId.value) ==> r == Trim(clientId.value)
    ensures clientId.None? || AllSpace(clientId.value) ==> r == Rid("req", uuid)
    ensures r != ""
  {
    if clientId.Some? && Trim(clientId.value) != "" then Trim(clientId.value) else Rid("req", uuid)
  }

  // ---------------------------------------------------------------------
  // safeJsonParse
  // ---------------------------------------------------------------------

  const Fence := "```"

  /** `^```json` in any letter case. */
  predicate JsonFenceAhead(t: string) {
    |t| >= 7 && t[..3] == Fence && ToLower(t[3..7]) == "json"
  }

  /** `.replace(/^```json\s*\/i, '')`. */
  function StripJsonFence(t: string): (r: string)
    ensures JsonFenceAhead(t) ==> r == TrimStart(t[7..])
    ensures !JsonFenceAhead(t) ==> r == t
  {
    if JsonFenceAhead(t) then TrimStart(t[7..]) else t
  }

  /** `.replace(/^```\s*\/i, '')`. */
  function StripOpenFence(t: string): (r: string)
    ensures StartsWith(t, Fence) ==> r == TrimStart(t[3..])
    ensures !StartsWith(t, Fence) ==> r == t
  {
    if StartsWith(t, Fence) then TrimStart(t[3..]) else t
  }

  /** `.replace(/\s*```$/i, '')`: the leftmost match takes the whole run of
      whitespace in front of the closing fence. */
  function StripCloseFence(t: string): (r: string)
    ensures EndsWith(t, Fence) ==> r == TrimEnd(t[..|t| - 3])
    ensures !EndsWith(t, Fence) ==> r == t
  {
    if EndsWith(t, Fence) then TrimEnd(t[..|t| - 3]) else t
  }

  /** The text `safeJsonParse` hands to `JSON.parse`. */
  function StripFences(text: string): string {
    StripCloseFence(StripOpenFence(StripJsonFence(Trim(text))))
  }

  /** A JSON text with no fence at either end. */
  predicate FenceFree(p: string) {
    IsTrimmed(p) && !StartsWith(p, Fence) && !EndsWith(p, Fence)
  }

  /** Text that needs no stripping reaches the parser unchanged. */
  lemma PlainTextUnchanged(p: string)
    requires FenceFree(p)
    ensures StripFences(p) == p
  {
    TrimOfTrimmed(p);
    assert !JsonFenceAhead(p) by {
      if |p| >= 7 { assert p[..3] == p[..7][..3]; }
    }
  }

  /** The JSON text of an object or an array, with no closing fence. */
  predicate JsonPayload(p: string) {
    |p| > 0 && (p[0] == '{' || p[0] == '[') && IsTrimmed(p) && !EndsWith(p, Fence)
  }

  lemma OuterTrim(w0: string, inner: string, w3: string)
    requires AllSpace(w0) && AllSpace(w3) && |inner| > 0
    requires !IsSpace(inner[0]) && !IsSpace(inner[|inner| - 1])
    ensures Trim(w0 + inner + w3) == inner
  {
    assert w0 + inner + w3 == w0 + (inner + w3);
    TrimAfterSpace(w0, inner + w3);
    TrimEndBeforeSpace(inner, w3);
    assert TrimStart(inner + w3) == inner + w3;
  }

  lemma NoFenceAtBrace(rest: string)
    requires |rest| > 0 && (rest[0] == '{' || rest[0] == '[')
    ensures !StartsWith(rest, Fence)
  {
    assert rest[0] != Fence[0];
  }

  lemma NoSpaceAtBrace(rest: string)
    requires |rest| > 0 && (rest[0] == '{' || rest[0] == '[')
    ensures TrimStart(rest) == rest
  {
    assert !IsSpace(rest[0]);
  }

  /** The opening fence with its `json` tag goes with the whitespace after it. */
  lemma TaggedFenceStripped(tag: string, w1: string, rest: string)
    requires |tag| == 4 && ToLower(tag) == "json"
    requires AllSpace(w1) && |rest| > 0 && (rest[0] == '{' || rest[0] == '[')
    ensures StripOpenFence(StripJsonFence(Fence + tag + w1 + rest)) == rest
  {
    var t := Fence + tag + w1 + rest;
    assert JsonFenceAhead(t) by {
      assert t[..3] == Fence;
      assert t[3..7] == tag;
    }
    assert t[7..] == w1 + rest;
    TrimStartAfterSpace(w1, rest);
    NoSpaceAtBrace(rest);
    NoFenceAtBrace(rest);
  }

  /** A bare opening fence goes with the whitespace after it. */
  lemma BareFenceStripped(w1: string, rest: string)
    requires AllSpace(w1) && |rest| > 0 && (rest[0] == '{' || rest[0] == '[')
    ensures StripOpenFence(StripJsonFence(Fence + w1 + rest)) == rest
  {
    var t := Fence + w1 + rest;
    assert !JsonFenceAhead(t) by {
      if |t| >= 7 {
        assert t[3] == (w1 + rest)[0];
        assert ToLower(t[3..7])[0] == LowerChar(t[3]);
      }
    }
    assert t[..3] == Fence && t[3..] == w1 + rest;
    TrimStartAfterSpace(w1, rest);
    NoSpaceAtBrace(rest);
  }

  lemma CloseFenceStripped(p: string, w2: string)
    requires AllSpace(w2) && |p| > 0 && !IsSpace(p[|p| - 1])
    ensures StripCloseFence(p + w2 + Fence) == p
  {
    var t := p + w2 + Fence;
    assert t[..|t| - 3] == p + w2;
    TrimEndBeforeSpace(p, w2);
  }

  /** The outer whitespace goes first, leaving the fenced block. */
  lemma FencedBlockTrimmed(p: string, tag: string, w0: string, w1: string, w2: string, w3: string)
    requires AllSpace(w0) && AllSpace(w3)
    ensures Trim(w0 + Fence + tag + w1 + p + w2 + Fence + w3) == Fence + tag + w1 + (p + w2 + Fence)
  {
    var inner := Fence + tag + w1 + (p + w2 + Fence);
    assert w0 + Fence + tag + w1 + p + w2 + Fence + w3 == w0 + inner + w3;
    assert inner[0] == '`' && inner[|inner| - 1] == '`';
    OuterTrim(w0, inner, w3);
  }

  /** The opening fence goes, tagged or not. */
  lemma OpenFenceStripped(tag: string, w1: string, rest: string)
    requires tag == "" || (|tag| == 4 && ToLower(tag) == "json")
    requires AllSpace(w1) && |rest| > 0 && (rest[0] == '{' || rest[0] == '[')
    ensures StripOpenFence(StripJsonFence(Fence + tag + w1 + rest)) == rest
  {
    if tag == "" {
      assert Fence + tag + w1 + rest == Fence + w1 + rest;
      BareFenceStripped(w1, rest);
    } else {
      TaggedFenceStripped(tag, w1, rest);
    }
  }

  /** A reply wrapped in a Markdown code block, with or without the `json`
      tag in any letter case and with any whitespace around the payload,
      reaches the parser as the payload alone. */
  lemma FencedTextStripped(p: string, tag: string, w0: string, w1: string, w2: string, w3: string)
    requires JsonPayload(p)
    requires tag == "" || (|tag| == 4 && ToLower(tag) == "json")
    requires AllSpace(w0) && AllSpace(w1) && AllSpace(w2) && AllSpace(w3)
    ensures StripFences(w0 + Fence + tag + w1 + p + w2 + Fence + w3) == p
  {
    FencedBlockTrimmed(p, tag, w0, w1, w2, w3);
    OpenFenceStripped(tag, w1, p + w2 + Fence);
    CloseFenceStripped(p, w2);
  }

  /** `safeJsonParse`: `jsonParse` is `JSON.parse` (`None` for a syntax
      error, which is not an `AppError`). */
  function SafeJsonParse(text: string, jsonParse: string -> Option<Json>): (r: Result<Json, Thrown>)
    ensures r.Ok? <==> jsonParse(StripFences(text)).Some?
    ensures r.Ok? ==> r.value == jsonParse(StripFences(text)).value
    ensures r.Err? ==> !IsAppError(r.error)
  {
    match jsonParse(StripFences(text))
    case None => Err(OtherErr("SyntaxError"))
    case Some(j) => Ok(j)
  }

  /** What the model's reply yields: the text of its first part (`''` when
      there is none), parsed and validated against the response schema. */
  function ValidatedReply(reply: Option<string>, jsonParse: string -> Option<Json>): (r: Result<AgentResponse, Thrown>)
    ensures r.Ok? ==> ValidAgent(r.value)
    ensures r.Ok? <==> SafeJsonParse(reply.GetOr(""), jsonParse).Ok? && ParseAgent(SafeJsonParse(reply.GetOr(""), jsonParse).value).Ok?
  {
    match SafeJsonParse(reply.GetOr(""), jsonParse)
    case Err(e) => Err(e)
    case Ok(j) => ParseAgent(j)
  }

  // ---------------------------------------------------------------------
  // Overrides
  // ---------------------------------------------------------------------

  /** `Math.max(0, Math.min(1, p))`. */
  function Clamp01(p: real): (r: real)
    ensures 0.0 <= r <= 1.0
    ensures 0.0 <= p <= 1.0 ==> r == p
  {
    if p < 0.0 then 0.0 else if p > 1.0 then 1.0 else p
  }

  /** The `image` the server sets: enabled as the request asks, no URL. */
  function ServerImage(enabled: bool): ImageInfo {
    ImageInfo(enabled, Null, None, None, None, None, None, None)
  }

  /** `slice(0, 3)`. */
  function FirstChoices(cs: seq<Choice>): (r: seq<Choice>)
    ensures |r| == (if |cs| <= 3 then |cs| else 3) && r == cs[..|r|]
    ensures |cs| <= 3 ==> r == cs
  {
    if |cs| <= 3 then cs else cs[..3]
  }

  /** The create override: the server's ids, chapter 0, the requested image
      setting, at most three of the model's choices. */
  function CreateOverride(v: AgentResponse, requestId: string, storyId: string, imageEnabled: bool): AgentResponse {
    v.(requestId := requestId, storyId := storyId, chapterIndex := 0, progress := Clamp01(v.progress),
       image := Present(ServerImage(imageEnabled)), choices := Some(FirstChoices(v.choices.GetOr([]))))
  }

  /** The continue override: the request's story, the next chapter number.
      The model's image and choices are kept. (The `??` fallback for a
      missing progress cannot fire: the schema requires progress.) */
  function ContinueOverride(v: AgentResponse, requestId: string, storyId: string, nextIndex: int): AgentResponse {
    v.(requestId := requestId, storyId := storyId, chapterIndex := nextIndex, progress := Clamp01(v.progress))
  }

  const MockTitle := "Mock Story"
  // Written in two pieces, as the stub texts are, to keep the verifier's
  // reasoning about their characters cheap.
  const MockCreateText := "This is a mock story " + "response used for tests/local development."
  const MockContinueText := "This is a mock continuation " + "response used for tests/local development."

  /** The object the create mock path validates. */
  function MockCreate(requestId: string, storyId: string): AgentResponse {
    AgentResponse(requestId, storyId, 0, 0.25, MockTitle, MockCreateText,
                  Present(ServerImage(false)), Some([Choice("c1", "Continue", map["action" := JStr("continue")])]))
  }

  /** The object the continue mock path validates. */
  function MockContinue(requestId: string, storyId: string, nextIndex: int): AgentResponse {
    var p := 0.25 + nextIndex as real * 0.25;
    AgentResponse(requestId, storyId, nextIndex, if p < 1.0 then p else 1.0, MockTitle, MockContinueText,
                  Present(ServerImage(false)), Some([]))
  }

  /** `generateCreateResponse` after the model call. `reply` is the model's
      reply text (`Ok(None)` when it has none) or the error the call
      raised; `reqUuid` and `storyUuid` are the UUIDs drawn for the ids. */
  function GenerateCreate(clientRequestId: Option<string>, imageEnabled: bool, mock: bool,
                          reqUuid: string, storyUuid: string,
                          reply: Result<Option<string>, Thrown>, jsonParse: string -> Option<Json>): (r: Result<AgentResponse, Thrown>)
    ensures mock ==> r == CheckAgent(MockCreate(RequestIdOf(clientRequestId, reqUuid), Rid("story", storyUuid)))
    ensures !mock && reply.Err? ==> r == Err(reply.error)
    ensures !mock && reply.Ok? ==> (r.Ok? <==> ValidatedReply(reply.value, jsonParse).Ok?)
    ensures !mock && r.Ok? ==>
      var v := ValidatedReply(reply.value, jsonParse).value;
      && r.value.requestId == RequestIdOf(clientRequestId, reqUuid)
      && r.value.storyId == Rid("story", storyUuid)
      && r.value.chapterIndex == 0
      && r.value.image == Present(ServerImage(imageEnabled))
      && r.value.progress == v.progress
      && r.value.title == v.title && r.value.text == v.text
      && r.value.choices == Some(v.choices.GetOr([]))
  {
    var requestId := RequestIdOf(clientRequestId, reqUuid);
    var storyId := Rid("story", storyUuid);
    if mock then CheckAgent(MockCreate(requestId, storyId))
    else
      match reply
      case Err(e) => Err(e)
      case Ok(text) =>
        match ValidatedReply(text, jsonParse)
        case Err(e) => Err(e)
        case Ok(v) =>
          assert v.choices.Some? ==> FirstChoices(v.choices.value) == v.choices.value;
          Ok(CreateOverride(v, requestId, storyId, imageEnabled))
  }

  /** `generateContinueResponse` after the model call. `chapterIndex` is the
      index of the chapter being continued from, as the handler passes it. */
  function GenerateContinue(clientRequestId: Option<string>, storyId: string, chapterIndex: Option<int>, mock: bool,
                            reqUuid: string,
                            reply: Result<Option<string>, Thrown>, jsonParse: string -> Option<Json>): (r: Result<AgentResponse, Thrown>)
    ensures var next := chapterIndex.GetOr(0) + 1;
      mock ==> r == CheckAgent(MockContinue(RequestIdOf(clientRequestId, reqUuid), storyId, next))
    ensures !mock && reply.Err? ==> r == Err(reply.error)
    ensures !mock && reply.Ok? ==> (r.Ok? <==> ValidatedReply(reply.value, jsonParse).Ok?)
    ensures !mock && r.Ok? ==>
      var v := ValidatedReply(reply.value, jsonParse).value;
      && r.value.requestId == RequestIdOf(clientRequestId, reqUuid)
      && r.value.storyId == storyId
      && r.value.chapterIndex == chapterIndex.GetOr(0) + 1
      && r.value.progress == v.progress
      && r.value.title == v.title && r.value.text == v.text
      && r.value.image == v.image && r.value.choices == v.choices
    ensures r.Ok? ==> r.value.chapterIndex == chapterIndex.GetOr(0) + 1
  {
    var requestId := RequestIdOf(clientRequestId, reqUuid);
    var nextIndex := chapterIndex.GetOr(0) + 1;
    if mock then CheckAgent(MockContinue(requestId, storyId, nextIndex))
    else
      match reply
      case Err(e) => Err(e)
      case Ok(text) =>
        match ValidatedReply(text, jsonParse)
        case Err(e) => Err(e)
        case Ok(v) => Ok(ContinueOverride(v, requestId, storyId, nextIndex))
  }

  // ---------------------------------------------------------------------
  // What the overrides guarantee
  // ---------------------------------------------------------------------

  /** A request id the server may hand out: a valid client id or `req_<uuid>`. */
  predicate GoodClientId(clientRequestId: Option<string>) {
    clientRequestId.None? || |Trim(clientRequestId.value)| <= 64
  }

  lemma RidTrimmed(prefix: string, uuid: string)
    requires IsUuid(uuid) && prefix != "" && !IsSpace(prefix[0])
    ensures TrimmedIn(Rid(prefix, uuid), 1, |prefix| + 37)
  {
    var r := Rid(prefix, uuid);
    assert r[|r| - 1] == uuid[35];
  }

  lemma RequestIdValid(clientRequestId: Option<string>, reqUuid: string)
    requires GoodClientId(clientRequestId) && IsUuid(reqUuid)
    ensures TrimmedIn(RequestIdOf(clientRequestId, reqUuid), 1, 128)
  {
    if clientRequestId.None? || AllSpace(clientRequestId.value) {
      RidTrimmed("req", reqUuid);
    } else {
      var t := Trim(clientRequestId.value);
      assert t != [] && |t| <= 64 && IsTrimmed(t);
    }
  }

  /** The same bounds as the response schema reads them, after trimming. */
  lemma RequestIdWithinSchema(clientRequestId: Option<string>, reqUuid: string)
    requires GoodClientId(clientRequestId) && IsUuid(reqUuid)
    ensures 1 <= |Trim(RequestIdOf(clientRequestId, reqUuid))| <= 128
  {
    RequestIdValid(clientRequestId, reqUuid);
    TrimOfTrimmed(RequestIdOf(clientRequestId, reqUuid));
  }

  lemma StoryIdWithinSchema(storyUuid: string)
    requires IsUuid(storyUuid)
    ensures 1 <= |Trim(Rid("story", storyUuid))| <= 128
  {
    RidTrimmed("story", storyUuid);
    TrimOfTrimmed(Rid("story", storyUuid));
  }

  lemma FirstChoicesValid(cs: seq<Choice>)
    requires forall i :: 0 <= i < |cs| ==> ValidChoice(cs[i])
    ensures ValidChoices(FirstChoices(cs))
  {
  }

  /** The create override keeps a valid response valid, given valid ids. */
  lemma CreateOverrideValid(v: AgentResponse, requestId: string, storyId: string, imageEnabled: bool)
    requires ValidAgent(v) && TrimmedIn(requestId, 1, 128) && TrimmedIn(storyId, 1, 128)
    ensures var o := CreateOverride(v, requestId, storyId, imageEnabled);
      ValidAgent(o) && |o.choices.value| <= 3
  {
    if v.choices.Some? { FirstChoicesValid(v.choices.value); }
  }

  /** The create result satisfies the response schema again, whatever the
      model said: the overrides never break it. */
  lemma CreateResultValid(clientRequestId: Option<string>, imageEnabled: bool, mock: bool,
                          reqUuid: string, storyUuid: string,
                          reply: Result<Option<string>, Thrown>, jsonParse: string -> Option<Json>)
    requires GoodClientId(clientRequestId) && IsUuid(reqUuid) && IsUuid(storyUuid)
    ensures var r := GenerateCreate(clientRequestId, imageEnabled, mock, reqUuid, storyUuid, reply, jsonParse);
      r.Ok? ==> ValidAgent(r.value) && |r.value.choices.value| <= 3
  {
    if !mock && reply.Ok? && ValidatedReply(reply.value, jsonParse).Ok? {
      var requestId := RequestIdOf(clientRequestId, reqUuid);
      var storyId := Rid("story", storyUuid);
      var v := ValidatedReply(reply.value, jsonParse).value;
      RequestIdValid(clientRequestId, reqUuid);
      RidTrimmed("story", storyUuid);
      CreateOverrideValid(v, requestId, storyId, imageEnabled);
      GenerateCreateOverrides(clientRequestId, imageEnabled, reqUuid, storyUuid, reply.value, jsonParse);
    }
  }

  lemma GenerateCreateOverrides(clientRequestId: Option<string>, imageEnabled: bool, reqUuid: string, storyUuid: string,
                                reply: Option<string>, jsonParse: string -> Option<Json>)
    requires ValidatedReply(reply, jsonParse).Ok?
    ensures GenerateCreate(clientRequestId, imageEnabled, false, reqUuid, storyUuid, Ok(reply), jsonParse)
      == Ok(CreateOverride(ValidatedReply(reply, jsonParse).value, RequestIdOf(clientRequestId, reqUuid),
                           Rid("story", storyUuid), imageEnabled))
  {
  }

  /** The continue result satisfies the response schema again as long as
      the next chapter number is in range. */
  lemma ContinueResultValid(clientRequestId: Option<string>, storyId: string, chapterIndex: Option<int>, mock: bool,
                            reqUuid: string, reply: Result<Option<string>, Thrown>, jsonParse: string -> Option<Json>)
    requires GoodClientId(clientRequestId) && IsUuid(reqUuid) && TrimmedIn(storyId, 1, 128)
    requires 0 <= chapterIndex.GetOr(0) + 1 <= 99
    ensures var r := GenerateContinue(clientRequestId, storyId, chapterIndex, mock, reqUuid, reply, jsonParse);
      r.Ok? ==> ValidAgent(r.value)
  {
    RequestIdValid(clientRequestId, reqUuid);
  }

  lemma MockTextsTrimmed()
    ensures TrimmedIn(MockTitle, 1, 140) && TrimmedIn(MockCreateText, 1, 12000) && TrimmedIn(MockContinueText, 1, 12000)
  {
    assert MockCreateText[0] == 'T' && MockCreateText[|MockCreateText| - 1] == '.';
    assert MockContinueText[0] == 'T' && MockContinueText[|MockContinueText| - 1] == '.';
  }

  /** The create mock: chapter 0, progress 0.25, exactly one choice. */
  lemma MockCreateShape(clientRequestId: Option<string>, imageEnabled: bool, reqUuid: string, storyUuid: string,
                        reply: Result<Option<string>, Thrown>, jsonParse: string -> Option<Json>)
    requires GoodClientId(clientRequestId) && IsUuid(reqUuid) && IsUuid(storyUuid)
    ensures var r := GenerateCreate(clientRequestId, imageEnabled, true, reqUuid, storyUuid, reply, jsonParse);
      && r.Ok? && r.value.chapterIndex == 0 && r.value.progress == 0.25
      && r.value.choices.Some? && |r.value.choices.value| == 1
      && r.value.requestId == RequestIdOf(clientRequestId, reqUuid)
      && r.value.storyId == Rid("story", storyUuid)
      && r.value.image == Present(ServerImage(false))
  {
    var m := MockCreate(RequestIdOf(clientRequestId, reqUuid), Rid("story", storyUuid));
    RequestIdValid(clientRequestId, reqUuid);
    RidTrimmed("story", storyUuid);
    MockCreateValid(RequestIdOf(clientRequestId, reqUuid), Rid("story", storyUuid));
    CheckAgentIdempotent(m);
  }

  lemma MockCreateValid(requestId: string, storyId: string)
    requires TrimmedIn(requestId, 1, 128) && TrimmedIn(storyId, 1, 128)
    ensures ValidAgent(MockCreate(requestId, storyId))
  {
    MockTextsTrimmed();
    var m := MockCreate(requestId, storyId);
    assert ValidChoice(m.choices.value[0]);
  }

  /** The continue mock: the next chapter, progress a quarter per chapter
      up to 1, no choices; it fails validation past chapter 99. */
  lemma MockContinueShape(clientRequestId: Option<string>, storyId: string, chapterIndex: Option<int>,
                          reqUuid: string, reply: Result<Option<string>, Thrown>, jsonParse: string -> Option<Json>)
    requires GoodClientId(clientRequestId) && IsUuid(reqUuid) && TrimmedIn(storyId, 1, 128)
    ensures var next := chapterIndex.GetOr(0) + 1;
      var r := GenerateContinue(clientRequestId, storyId, chapterIndex, true, reqUuid, reply, jsonParse);
      && (r.Ok? <==> 0 <= next <= 99)
      && (r.Ok? ==> r.value.chapterIndex == next && r.value.choices == Some([])
                    && r.value.progress == (if 0.25 + next as real * 0.25 < 1.0 then 0.25 + next as real * 0.25 else 1.0))
  {
    var next := chapterIndex.GetOr(0) + 1;
    var m := MockContinue(RequestIdOf(clientRequestId, reqUuid), storyId, next);
    if 0 <= next <= 99 {
      RequestIdValid(clientRequestId, reqUuid);
      MockContinueValid(RequestIdOf(clientRequestId, reqUuid), storyId, next);
      CheckAgentIdempotent(m);
      assert m.progress == (if 0.25 + next as real * 0.25 < 1.0 then 0.25 + next as real * 0.25 else 1.0);
    }
  }

  lemma MockContinueValid(requestId: string, storyId: string, next: int)
    requires TrimmedIn(requestId, 1, 128) && TrimmedIn(storyId, 1, 128) && 0 <= next <= 99
    ensures ValidAgent(MockContinue(requestId, storyId, next))
  {
    MockTextsTrimmed();
  }
}
