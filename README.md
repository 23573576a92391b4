# KidsTel story server — admission pipeline in Dafny

This project models the core of the KidsTel story server. Children's apps call it to create a story, continue a story with a chosen option, or request an illustration.

Each request passes a fixed sequence of gates before a model is asked for text:

1. the kill switch;
2. Firebase identity and App Check verification;
3. the runtime policy, which fails closed;
4. the story-generation switch;
5. per-instance IP and UID rate limits;
6. a body-size cap;
7. the request schema;
8. a per-user daily quota;
9. keyword moderation of the input.

The model's draft is then overwritten with server-controlled identifiers, moderated again, and persisted together with an audit record.

## How the project is laid out

There is one Dafny module per source file:

- `Errors` covers `errors.ts`.
- `Moderation` covers `moderation.ts`.
- `Env` covers `env.ts`.
- `Policy` covers `policy.ts`. The loader's TTL cache is a class.
- `Schemas` covers `storySchemas.ts`.
- `ImagePrompt` covers `imagePrompt.ts`.
- `Auth` covers `auth.ts`. The token decision is a method.
- `VertexImage` covers `vertexImage.ts`.
- `StoryEngine` covers `storyEngine.ts`.
- `Store` covers `firestoreStore.ts`. Firestore is an in-memory class over maps of usage counters, story documents, chapter documents and audit records.
- `index.ts` is split in two:
  - `ServerHelpers` holds the day stamp, the language default, the safe stub, model selection and the rate-limiter class.
  - `Pipeline` holds the handlers as methods of an `App` class, plus the `POST` routing.
- `PipelineProps` holds the pipeline's properties.
- `Base`, `Text` and `JsonText` are shared helpers:
  - `Base` holds Option/Result, the JSON value and nullable fields.
  - `Text` models JavaScript's `trim`, ASCII lower-casing and decimal printing.
  - `JsonText` models `JSON.stringify` string escaping.

Each handler method updates the two rate limiters and the store in place. It is proved equal to a specification function over a snapshot of that state (`CreateSpec`, `ContinueSpec`, `IllustrateSpec`). The pipeline's properties are proved as lemmas about those functions.

Some inputs come from outside the server: the outcome of token verification, the policy loader's answer, the model's reply, store faults, `randomUUID` and the clock. These are parameters of a call, so every property holds for every outcome they can have.

## Model

| member | source | states |
|---|---|---|
| Errors.NewAppError | server/src/errors.ts:6-11 | The error keeps the status, code and safe message it was built with; the message defaults to the safe message when none is given |
| Errors.ToSafeErrorBody | server/src/errors.ts:18-23 | An `AppError` becomes `{error: safeMessage, code}`; anything else becomes `{error: 'Internal error'}` with no code |
| Errors.SafeBodyIgnoresMessage | server/src/errors.ts:18-21 | The client-facing body never depends on the internal message |
| Errors.SafeBodyHidesOtherErrors | server/src/errors.ts:22 | Any two non-`AppError` values give the same generic body |
| Moderation.ModerateText | server/src/moderation.ts:15-24 | Text longer than the limit is refused as `input too long`, and length equal to the limit passes. Otherwise the text is allowed exactly when no rule hits. A refusal carries the first hitting rule's reason; an allowed result carries none |
| Moderation.FirstHit | server/src/moderation.ts:20-23 | Returns the index of the first rule in order that hits, and no earlier rule hits; `None` exactly when no rule hits |
| Moderation.Hits | server/src/moderation.ts:21 | A rule hits exactly when one of its alternatives matches at some position |
| Moderation.HitsFrom | server/src/moderation.ts:21 | The left-to-right search finds a match exactly when one exists at or after the start |
| Moderation.AnyAlternativeAt | server/src/moderation.ts:21 | True exactly when some alternative of the rule matches at the position |
| Moderation.SpaceRunEnd | server/src/moderation.ts:9 | The end of the maximal whitespace run, which is the greedy `\s+` |
| Moderation.BannedPatternsWellFormed | server/src/moderation.ts:7-13 | Every alternative of every rule is a non-empty phrase of words made of lower-case letters and hyphens |
| Moderation.CaseInsensitive | server/src/moderation.ts:8-12 | Lower-casing the text does not change the verdict |
| Moderation.WholeWordBlocks | server/src/moderation.ts:8-12 | A banned word with a non-word character or the text's edge on each side refuses any text within the limit |
| Moderation.StandaloneWordMatches | server/src/moderation.ts:8-12 | A banned word standing alone matches its rule |
| Moderation.MatchBlocks | server/src/moderation.ts:20-21 | Any match of any rule makes short-enough text refused |
| Moderation.WhitespaceRunBlocks | server/src/moderation.ts:9 | `kill`, any non-empty whitespace run, then `myself` is refused |
| Auth.GetBearerToken | server/src/auth.ts:12-17 | Returns a token exactly when the header is `Bearer` in any case, then whitespace, then at least one character. The token is the trimmed remainder, the same for every way the regex can split |
| Auth.MatchesExactly | server/src/auth.ts:15 | The greedy split the code tries succeeds exactly when some split matches |
| Auth.SplitMatches | server/src/auth.ts:15 | A successful tried split is a real match |
| Auth.GreatestSplit | server/src/auth.ts:15 | If any split matches, the tried split succeeds |
| Auth.GroupTrim | server/src/auth.ts:15-16 | Every matching split trims to the same token |
| Auth.GetAppCheckToken | server/src/auth.ts:19-24 | `None` exactly when the header is absent or empty, otherwise the trimmed header; a whitespace-only header gives the empty string, which the caller treats as missing |
| Auth.VerifyRequestTokens | server/src/auth.ts:26-78 | No bearer: `AUTH_MISSING` 401 when required, else an `anon_` uid. A present bearer is always verified; a failure gives 401 `AUTH_INVALID`. Identity is checked before App Check. App Check missing and required gives 403 `APPCHECK_MISSING`; invalid gives 403 `APPCHECK_INVALID`. On success the uid is the token's |
| ImagePrompt.SizeToAspectRatio | server/src/imagePrompt.ts:17-19 | `1280x720` maps to `16:9`; every other size maps to `1:1` |
| ImagePrompt.AgeGroupToRange | server/src/imagePrompt.ts:21-27 | The three age groups map to their ranges and anything else to the default range |
| ImagePrompt.PromptLines | server/src/imagePrompt.ts:41-52 | Ten lines: the fixed opening line first and the safety line last |
| ImagePrompt.BuildImagePrompt | server/src/imagePrompt.ts:29-57 | Size defaults to `768x768` and the aspect ratio is that size's. Style is the default when blank, otherwise trimmed. The returned fields are the ones written into the prompt |
| ImagePrompt.PromptTextTrimmed | server/src/imagePrompt.ts:41-54 | The joined prompt has no outer whitespace, so the final `trim` is a no-op |
| ImagePrompt.BlankStyleIsDefault | server/src/imagePrompt.ts:37 | A blank style gives the same prompt as no style |
| VertexImage.PickFirstBase64 | server/src/vertexImage.ts:20-49 | Nothing for a non-object prediction; otherwise the trimmed base64 of the first usable candidate, with its mime type |
| VertexImage.PickPrecedence | server/src/vertexImage.ts:25-37 | `bytesBase64Encoded`, then `bytes_base64_encoded` (both with the prediction's `mimeType`), then `image.bytesBase64Encoded` with `image.mimeType ?? mimeType`; a later one is used only when all earlier ones are unusable |
| VertexImage.PickFromImages | server/src/vertexImage.ts:39-46 | In the `images[]` case the first non-blank entry is used, and its mime type falls back to the prediction's |
| VertexImage.PickNone | server/src/vertexImage.ts:20-48 | Nothing is found exactly when no candidate of any shape is usable |
| VertexImage.FirstImageFrom | server/src/vertexImage.ts:41-45 | The first usable entry at or after the start, if any |
| VertexImage.Coalesce | server/src/vertexImage.ts:36 | JavaScript `??` on member values |
| VertexImage.B64Of | server/src/vertexImage.ts:25-26 | For a member that is a non-blank string (callers test this first), its trimmed value, which is non-empty and trimmed |
| VertexImage.Predictions | server/src/vertexImage.ts:103 | The `predictions` array, or empty |
| VertexImage.PickFromPredictions | server/src/vertexImage.ts:108 | Uses the first prediction's image; the second is consulted only when the first yields nothing and a second exists |
| VertexImage.MimeTypeOf | server/src/vertexImage.ts:118 | A blank mime type becomes `image/png`; otherwise it is trimmed |
| VertexImage.RequestBody | server/src/vertexImage.ts:72-81 | One instance with the trimmed prompt and one sample at the requested aspect ratio |
| VertexImage.TokenText | server/src/vertexImage.ts:63 | The access token trimmed, blank when absent |
| VertexImage.ReadImage | server/src/vertexImage.ts:92-119 | Non-OK gives 502 `VERTEX_IMAGE_FAILED`; no predictions gives `VERTEX_IMAGE_EMPTY`; no base64 gives `VERTEX_IMAGE_BAD_RESPONSE`; zero bytes gives `VERTEX_IMAGE_ZERO_BYTES`; otherwise the decoded bytes and mime type |
| VertexImage.GenerateImage | server/src/vertexImage.ts:51-120 | A blank prompt fails with 400 `IMAGE_PROMPT_EMPTY` before any request; otherwise the response is classified as `ReadImage` states |
| Env.BoolFromString | server/src/env.ts:3-9 | Absent or blank gives the default. After trim and lower-casing, `1/true/yes` give true and `0/false/no` give false. Anything else gives the default |
| Env.ParseNumber | server/src/env.ts:89 | Defined exactly on blank text (0), digits, and `-` or `+` followed by digits, after trimming; gives the digits' value, negated for `-` |
| Env.ParseNumberOfIntToString | server/src/env.ts:98-102 | Printing an integer and reading it back gives the integer, so the numeric defaults read as themselves |
| Env.ReadEnv | server/src/env.ts:82-114 | Fails exactly when `GOOGLE_CLOUD_PROJECT` is missing or empty (line 17); otherwise builds the configuration |
| Env.ProjectIdSource | server/src/env.ts:85 | The project id is the trimmed Firebase project id if set, else the trimmed Google Cloud project |
| Env.DefaultBucket | server/src/env.ts:86 | With no bucket set, the bucket is `<projectId>.appspot.com` |
| Env.SecureDefaults | server/src/env.ts:92-112 | With the flags unset: auth and App Check are required, and the kill switch, mock engine and store-disabled flags are off |
| Env.FlagOverride | server/src/env.ts:3-9 | A flag differs from its default only when its variable holds a recognised word |
| Env.PolicyModeSelection | server/src/env.ts:107-109 | Static mode exactly when the trimmed, lower-cased value is `static` |
| Env.DefaultFlags | server/src/env.ts:92-112 | The default of every flag |
| Env.DefaultNumbers | server/src/env.ts:89-102 | Port 8080, input 1200, output 12000, daily limit 40, signed-url days 30 |
| Env.DefaultNames | server/src/env.ts:91-97 | Database `(default)`, model `gemini-2.5-flash`, location `us-central1`, image model `imagen-3.0-generate-001` |
| Policy.ParsePolicy | server/src/policy.ts:6-31 | Succeeds exactly when every present member has its type and bounds and no member is unknown; the result satisfies every bound, with absent members at their defaults |
| Policy.ControlsOf | server/src/policy.ts:8-14 | Succeeds exactly when the switches and model controls that are present have their type and range; each is the document's value or its default |
| Policy.LimitsOf | server/src/policy.ts:16-28 | Succeeds exactly when every present limit is an integer in its range; each is the document's value or its default |
| Policy.BoolField | server/src/policy.ts:8-9 | An absent boolean takes its default; a non-boolean fails |
| Policy.IntField | server/src/policy.ts:13-29 | An absent number takes its default; a non-integer or out-of-bounds value fails |
| Policy.RealField | server/src/policy.ts:14 | Temperature within bounds, integer or not |
| Policy.NonEmptyStrings | server/src/policy.ts:12 | The items, when each is a non-empty string |
| Policy.StringsField | server/src/policy.ts:12 | The model allow-list, or its default |
| Policy.EmptyDocumentIsDefault | server/src/policy.ts:8-29 | An empty document gives generation and illustrations off and every limit at its default |
| Policy.PolicyRoundTrip | server/src/policy.ts:6-31 | Every valid policy written as a document parses back to itself |
| Policy.LoadFromFirestore | server/src/policy.ts:48-53 | A missing document parses as `{}`; a failed read fails |
| Policy.LoadFromStatic | server/src/policy.ts:55-63 | Blank text gives the disabled default; malformed JSON fails; otherwise the parse |
| Policy.DisabledDocumentIsDefault | server/src/policy.ts:56-60 | The document blank static text stands for parses to the default policy |
| Policy.BlankStaticIsDefault | server/src/policy.ts:56-60 | Blank static text gives exactly the default policy |
| Policy.PolicyLoader.constructor | server/src/policy.ts:45-46 | Empty cache, and a TTL of 60000 unless one is given |
| Policy.PolicyLoader.GetPolicy | server/src/policy.ts:66-79 | A cached entry answers, without a load, only when `expiresAt > now`. A successful load is cached until `now + ttl` and returned. A failure clears the cache and returns nothing |
| Policy.LoadedPolicyValid | server/src/policy.ts:70-73 | Every policy a load hands out satisfies the schema's bounds |
| Schemas.ParseLang | server/src/storySchemas.ts:3 | Accepts exactly `ru`, `en`, `hy`, and is the inverse of `LangCode` |
| Schemas.ParseAgeGroup | server/src/storySchemas.ts:4 | Accepts exactly `3_5`, `6_8`, `9_12` |
| Schemas.ParseStoryLength | server/src/storySchemas.ts:5 | Accepts exactly `short`, `medium`, `long` |
| Schemas.ParseImageSize | server/src/storySchemas.ts:90 | Accepts exactly the two sizes |
| Schemas.ParseAspectRatio | server/src/storySchemas.ts:91 | Accepts exactly the two ratios |
| Schemas.StrIn | server/src/storySchemas.ts:7-10 | A string whose trimmed length is within bounds, returned trimmed |
| Schemas.OptStrIn | server/src/storySchemas.ts:7-10 | As `StrIn`, with absence allowed |
| Schemas.ParseMeta | server/src/storySchemas.ts:12-19 | An object; members other than `userInitiated` are kept as extra |
| Schemas.ParseToggle | server/src/storySchemas.ts:32 | A closed object holding only an optional boolean `enabled` |
| Schemas.ParseSelection | server/src/storySchemas.ts:33-41 | An object; hero, location and style are each at most 200 after trim; unknown members are kept |
| Schemas.ParseChoiceInput | server/src/storySchemas.ts:58-69 | An object; label and text at most 200, choice index 0..9; unknown members are kept |
| Schemas.ParseImageOptions | server/src/storySchemas.ts:101-108 | An object; style at most 64 after trim; unknown members are kept |
| Schemas.CreateFields | server/src/storySchemas.ts:21-50 | The request id is at most 64 after trim, the story id 1..128, the creativity level in [0,1], the idea at most 1200; `image` is a closed object; `action` is absent or `generate` |
| Schemas.ParseCreate | server/src/storySchemas.ts:21-50 | An object whose request id (at most 64) and idea (at most 1200) are bounded, whose `image` is closed, and whose unknown members are kept |
| Schemas.CreatePassthrough | server/src/storySchemas.ts:50 | Adding an unknown top-level member leaves acceptance unchanged; the parsed request is the same except that the member is kept among the extras |
| Schemas.ContinueFields | server/src/storySchemas.ts:52-88 | The story id is required; the chapter index is 0..99; the choice label and text are at most 200 and its index 0..9 |
| Schemas.ParseContinue | server/src/storySchemas.ts:52-88 | An object with a trimmed story id of 1..128, a chapter index 0..99 when given, a closed `image`; unknown members are kept |
| Schemas.ContinuePassthrough | server/src/storySchemas.ts:88 | Adding an unknown top-level member leaves acceptance unchanged; the parsed request is the same except that the member is kept among the extras |
| Schemas.IllustrateFields | server/src/storySchemas.ts:93-112 | The story id is 1..128 trimmed, the chapter index is an integer 0..99, and the prompt is 1..1200 |
| Schemas.ParseIllustrate | server/src/storySchemas.ts:93-112 | An object holding a story id, a chapter index 0..99 and a prompt that is the trimmed input of length 1..1200; unknown members are kept |
| Schemas.IllustratePassthrough | server/src/storySchemas.ts:112 | Adding an unknown top-level member leaves acceptance unchanged; the parsed request is the same except that the member is kept among the extras |
| Schemas.BlankPromptRefused | server/src/storySchemas.ts:98 | A blank prompt is refused |
| Schemas.NullableStr | server/src/storySchemas.ts:133 | A string, null or absent |
| Schemas.DecodeImageInfo | server/src/storySchemas.ts:130-145 | An object whose `enabled` is the boolean member. `url` is absent, null or the member's string, exactly as in the input |
| Schemas.ImageInfoStrips | server/src/storySchemas.ts:130-145 | Unknown members of the image object are dropped |
| Schemas.DecodeChoice | server/src/storySchemas.ts:148-152 | Succeeds exactly for an object with string `id` and `label` and, when present, an object `payload`. Its id and label are those strings; the payload is that object, or `{}` when absent |
| Schemas.DecodeChoices | server/src/storySchemas.ts:146-155 | Succeeds exactly when every item decodes, and gives each item's choice in order. The bounds (at most 3, id 1..64, label 1..80 after trim) are checked afterwards by `CheckAgent` |
| Schemas.DecodeAgent | server/src/storySchemas.ts:123-156 | A strict object: any unknown member is refused |
| Schemas.CheckAgent | server/src/storySchemas.ts:123-156 | Succeeds exactly within the bounds: ids 1..128 trimmed, index 0..99, progress in [0,1], title at most 140, text at most 12000. The result is the normalised response |
| Schemas.NormalizeAgentBounds | server/src/storySchemas.ts:123-156 | Normalising (trimming) preserves the bounds the schema checks |
| Schemas.CheckAgentIdempotent | server/src/storySchemas.ts:123-156 | Validating an already validated response gives it back |
| Schemas.ParseAgent | server/src/storySchemas.ts:123-156 | Decoding followed by the bound check |
| Schemas.AgentRoundTrip | server/src/storySchemas.ts:123-156 | Every valid response written as JSON parses back to itself |
| Schemas.ParseIllustration | server/src/storySchemas.ts:114-121 | A strict object whose base64 length is 16..200000 |
| Schemas.IllustrationRoundTrip | server/src/storySchemas.ts:114-121 | A valid illustration response written as JSON parses back to itself |
| Schemas.RestrictIgnoresUnknown | server/src/storySchemas.ts:50 | Restricting to the known keys ignores extra members |
| StoryEngine.RequestIdOf | server/src/storyEngine.ts:56 | The trimmed client id when it is not blank, else `req_<uuid>` |
| StoryEngine.RequestIdValid | server/src/storyEngine.ts:178 | A client id accepted by the request schema, or a fresh id, is within the response schema's bounds |
| StoryEngine.StripJsonFence | server/src/storyEngine.ts:15 | Removes a leading `json` fence in any case and the whitespace after it |
| StoryEngine.StripOpenFence | server/src/storyEngine.ts:16 | Removes a leading bare fence and the whitespace after it |
| StoryEngine.StripCloseFence | server/src/storyEngine.ts:17 | Removes a trailing fence and all whitespace before it |
| StoryEngine.PlainTextUnchanged | server/src/storyEngine.ts:11-19 | Fence-free trimmed text reaches the parser unchanged |
| StoryEngine.FencedTextStripped | server/src/storyEngine.ts:11-19 | A fenced JSON payload (tagged or bare, with any surrounding whitespace) reaches the parser as the payload alone |
| StoryEngine.SafeJsonParse | server/src/storyEngine.ts:11-19 | Parses the stripped text; a syntax error is a non-`AppError` failure |
| StoryEngine.ValidatedReply | server/src/storyEngine.ts:140-142 | The first part's text, or `''`, parsed and validated |
| StoryEngine.Clamp01 | server/src/storyEngine.ts:150 | The result lies in [0,1] and equals the input when the input already lies there |
| StoryEngine.FirstChoices | server/src/storyEngine.ts:152 | At most 3 choices, a prefix of the model's |
| StoryEngine.GenerateCreate | server/src/storyEngine.ts:55-153 | Whatever the model returns: chapter 0, the server's ids, image `{enabled as requested, url null}`, at most 3 choices, progress in [0,1] |
| StoryEngine.GenerateContinue | server/src/storyEngine.ts:177-274 | The request's story id, index `(chapterIndex ?? 0) + 1`, progress in [0,1]; the mock path is the validated mock |
| StoryEngine.CreateOverrideValid | server/src/storyEngine.ts:145-153 | Overriding keeps a valid response valid |
| StoryEngine.CreateResultValid | server/src/storyEngine.ts:144-153 | The create result satisfies the response schema |
| StoryEngine.ContinueResultValid | server/src/storyEngine.ts:268-274 | The continue result satisfies the response schema when the next index is in range |
| StoryEngine.MockCreateShape | server/src/storyEngine.ts:59-72 | Whatever the image flag, the create mock is valid: index 0, progress 0.25, exactly one choice, the request's or a fresh request id, the fresh story id, and the image disabled |
| StoryEngine.MockContinueShape | server/src/storyEngine.ts:180-192 | The continue mock has index `next`, progress `min(1, 0.25 + 0.25*next)` and no choices; it fails validation past 99 |
| Store.UsageKeyInjective | server/src/firestoreStore.ts:290 | Two (uid, 8-digit day) pairs share a counter key only when they are equal, so other users and days are untouched |
| Store.DailyStep | server/src/firestoreStore.ts:292-299 | A missing counter counts as 0. At or above the limit, refuse and change nothing; otherwise the count becomes current + 1 |
| Store.DailyLimitExact | server/src/firestoreStore.ts:289-300 | From a fresh counter, exactly `limit` calls succeed, the next fails, the counter stays at `limit`, and other keys are untouched |
| Store.StoryStore.EnforceDailyLimit | server/src/firestoreStore.ts:289-300 | Performs `DailyStep` on the usage map; a refusal is `DAILY_LIMIT_EXCEEDED` and nothing else changes |
| Store.ClampLimit | server/src/firestoreStore.ts:133 | The limit clamped to [1,10], default 4 |
| Store.TopDesc | server/src/firestoreStore.ts:139-140 | At most `limit` of the highest distinct chapter indexes, in descending order |
| Store.ListFromSubcollection | server/src/firestoreStore.ts:135-166 | The result has at most `limit` entries, in ascending chapter order |
| Store.AscendingTop | server/src/firestoreStore.ts:166 | Reversing the descending query gives ascending order |
| Store.ListFallback | server/src/firestoreStore.ts:158-173 | An empty sub-collection or a failed query gives the last `min(limit, n)` embedded chapters, in stored order |
| Store.LastChapters | server/src/firestoreStore.ts:162 | The suffix of length `min(limit, n)` |
| Store.QueryRecords | server/src/firestoreStore.ts:143-156 | The loop's output: one record per queried document |
| Store.StoryStore.ListStoryChapters | server/src/firestoreStore.ts:132-174 | The loop computes `ListSpec` of the stored documents |
| Store.FindChapter | server/src/firestoreStore.ts:205 | The first embedded chapter with the index, if any |
| Store.ChapterSpec | server/src/firestoreStore.ts:176-217 | The sub-collection document if it exists; otherwise the first embedded match with the requested index; `None` for a missing story or no match |
| Store.StoryStore.GetStoryChapter | server/src/firestoreStore.ts:176-217 | Returns `ChapterSpec` of the stored documents |
| Store.ToRecord | server/src/firestoreStore.ts:186-195 | A chapter document read as a chapter record |
| Store.SessionLatest | server/src/firestoreStore.ts:61-81 | `latestChapterIndex` is the last chapter's index, or 0 for none; absent metadata is stored as null |
| Store.StoryStore.UpsertStorySession | server/src/firestoreStore.ts:36-82 | Only the session's story document is replaced |
| Store.ChapterWriteStory | server/src/firestoreStore.ts:229-244 | The story summary after a chapter write: the latest index is the chapter's, and `createdAt` is kept |
| Store.ChapterWriteKeeps | server/src/firestoreStore.ts:229-244 | With no language supplied, the stored language and creation time are kept |
| Store.ChapterWriteDoc | server/src/firestoreStore.ts:246-261 | The chapter document written |
| Store.StoryStore.WriteStoryChapter | server/src/firestoreStore.ts:219-263 | Updates only the story summary and that chapter's document |
| Store.IllustrationDoc | server/src/firestoreStore.ts:278-286 | Only the image fields of the chapter document change |
| Store.StoryStore.UpdateChapterIllustration | server/src/firestoreStore.ts:265-287 | Updates only that chapter's image fields |
| Store.StoryStore.WriteAudit | server/src/firestoreStore.ts:14-34 | Stores the record under its request id and changes nothing else |
| Store.StoryStore.StoryDocOf | server/src/index.ts:413-415 | The stored story document when it exists, `None` otherwise |
| ServerHelpers.Yyyymmdd | server/src/index.ts:33-38 | All digits, and 8 of them for a four-digit year |
| ServerHelpers.YyyymmddDecodes | server/src/index.ts:33-38 | The stamp reads back as the year, the zero-padded month and the day |
| ServerHelpers.YyyymmddInjective | server/src/index.ts:33-38 | Two dates never share a stamp |
| ServerHelpers.GetLangOrDefault | server/src/index.ts:40-44 | The trimmed, lower-cased value when it is `ru`, `en` or `hy`, else `en` |
| ServerHelpers.LangOfCode | server/src/index.ts:40-44 | A language code comes back as its own language |
| ServerHelpers.SafeStubShape | server/src/index.ts:46-76 | The stub is accepted exactly when the ids and the index are in bounds. It then echoes them with progress 1, no choices and a disabled image with a null url, and its title and text are in the requested language |
| ServerHelpers.StubChecked | server/src/index.ts:66-75 | The schema's verdict on a stub whose title and text fit |
| ServerHelpers.StubImageDisabled | server/src/index.ts:73 | The stub image is disabled, with no url |
| ServerHelpers.SelectModel | server/src/index.ts:226 | The configured model when it is allowed, else the first allowed; `None` only for an empty list; always a member of the list |
| ServerHelpers.TakeSpec | server/src/index.ts:112-122 | An unseen or expired bucket restarts with count 1 and `resetAt = now + 60000` and passes. A live bucket at the limit refuses unchanged. Otherwise the count grows by 1 and the check passes |
| ServerHelpers.TakeKeepsBound | server/src/index.ts:112-134 | With limit at least 1, every count stays within 1..limit and no other key's bucket changes |
| ServerHelpers.WindowAdmits | server/src/index.ts:112-122 | A fresh window admits `max(limit, 1)` checks, then refuses, and the count stops there |
| ServerHelpers.RateLimiter.Take | server/src/index.ts:124-134 | Performs `TakeSpec` on the limiter's buckets |
| JsonText.EscapeRoundTrip | server/src/index.ts:250-255 | Escaping a string for a JSON literal loses nothing: it reads back as the string |
| JsonText.EscapePlain | server/src/index.ts:250-255 | Text without quotes, backslashes or control characters is written unchanged |
| JsonText.SortedKeys | server/src/index.ts:422-427 | The object's keys, each once, in ascending order |
| Pipeline.ConfigOf | server/src/index.ts:89-91 | A Firestore handle exists exactly when the policy lives in Firestore or the store is enabled |
| Pipeline.AuthFailure | server/src/index.ts:156-164 | An `AppError` is answered with its status and safe body; anything else with 401 `Unauthorized` |
| Pipeline.Caught | server/src/index.ts:347-351 | A schema error gives 400 `Invalid request`, an `AppError` its own status and code, anything else 500 `Internal error` |
| Pipeline.IllustrateCaught | server/src/index.ts:617-633 | As `Caught`, except that any other error gives 200 with a disabled placeholder |
| Pipeline.Audited | server/src/index.ts:205-211 | An audit is written only when wanted and a Firestore handle exists, and it changes only the audit collection |
| Pipeline.ClientIp | server/src/index.ts:215 | `req.ip`, else the socket address, else `unknown`; never empty |
| Pipeline.BlockedReply | server/src/index.ts:270-274 | The block headers are set whatever the stub's validation says |
| Pipeline.ChapterOf | server/src/index.ts:325-333 | The stored chapter carries the response's index, title, text, progress and choices, and its image url when present |
| Pipeline.BaseIndex | server/src/index.ts:462 | The last stored chapter's index, else the requested one, else 0 |
| Pipeline.DispatchTarget | server/src/index.ts:637-643 | `generate`, `continue` and `illustrate` run their handlers with route `/`; anything else is 400 `Unsupported action` |
| Pipeline.App.HandleCreate | server/src/index.ts:196-353 | Computes `CreateSpec`: the response and the new limiter and store state |
| Pipeline.App.CreateAfterDaily | server/src/index.ts:250-297 | Computes `CreateAdmitted` |
| Pipeline.App.CreateFinish | server/src/index.ts:299-346 | Computes `CreateGenerated` |
| Pipeline.App.HandleContinue | server/src/index.ts:355-527 | Computes `ContinueSpec` |
| Pipeline.App.ContinueWithStory | server/src/index.ts:413-416 | Computes `ContinueLoaded` |
| Pipeline.App.ContinueOwnedStory | server/src/index.ts:418-451 | Computes `ContinueOwned` |
| Pipeline.App.ContinueGenerate | server/src/index.ts:453-474 | Computes `ContinueDraft` |
| Pipeline.App.ContinueFinish | server/src/index.ts:476-520 | Computes `ContinueGenerated` |
| Pipeline.App.HandleIllustrate | server/src/index.ts:529-634 | Computes `IllustrateSpec` |
| Pipeline.App.Gate | server/src/index.ts:200-222 | Computes `GateSpec`, updating the limiters |
| Pipeline.App.Daily | server/src/index.ts:228-248 | Computes `DailySpec`, updating the usage counter |
| Pipeline.App.Audit | server/src/index.ts:205-211 | Computes `Audited` on the store |
| Pipeline.App.constructor | server/src/index.ts:89-110 | Empty limiters and an empty store |
| PipelineProps.KillSwitchFirst | server/src/index.ts:197 | The kill switch answers 503 before any other step and changes nothing |
| PipelineProps.AuthBeforePolicy | server/src/index.ts:200-201 | A failed verification is answered before the policy is read |
| PipelineProps.PolicyFailsClosed | server/src/index.ts:136-146 | No policy gives 503 `POLICY_UNAVAILABLE` with no state change |
| PipelineProps.IllustrateEarlyExits | server/src/index.ts:530-536 | Illustrate meets the kill switch, auth and policy gates the same way |
| PipelineProps.GenerationSwitchedOff | server/src/index.ts:204-213 | Generation off gives 503 and one blocked `generation_disabled` audit; no quota is consumed |
| PipelineProps.GateAdmits | server/src/index.ts:197-222 | The gates admit exactly when auth, policy, generation, IP quota, UID quota and body size all pass in that order |
| PipelineProps.IpQuotaRefusal | server/src/index.ts:216 | The IP refusal gives 429 and leaves every bucket unchanged |
| PipelineProps.UidQuotaRefusal | server/src/index.ts:217 | The UID refusal gives 429 after the IP has been counted |
| PipelineProps.BodyCapBoundary | server/src/index.ts:219-222 | A body exactly at `max_body_kb*1024` passes; one byte more gives 413 |
| PipelineProps.IllustrateIgnoresGenerationSwitch | server/src/index.ts:536-545 | Illustrate's gates do not depend on the generation switch |
| PipelineProps.DailyLimitRefusal | server/src/index.ts:230-245 | At the limit: 429, the counter unchanged, and exactly one blocked `daily_limit_exceeded` audit |
| PipelineProps.DailyLimitPass | server/src/index.ts:230-231 | Below the limit the request goes on and the day's count grows by 1 |
| PipelineProps.DailyFaults | server/src/index.ts:232-247 | A store error naming the limit is treated as the limit; any other is rethrown |
| PipelineProps.DailyWithoutStore | server/src/index.ts:229 | No Firestore handle gives 503 `STORE_UNAVAILABLE` |
| PipelineProps.BlockedStub | server/src/index.ts:270-274 | A block answers 200 with the stub and the block headers when the index is in range; otherwise the schema's 400 |
| PipelineProps.CreateInputBlocked | server/src/index.ts:257-274 | Refused input gives the chapter-0 stub of a fresh story under the `moderation_input` headers |
| PipelineProps.CreateInputBlockedState | server/src/index.ts:257-268 | Refused input stores no story and moves no counter; it is audited unless the store is off |
| PipelineProps.BannedIdeaBlocksCreate | server/src/index.ts:250-258 | A single banned word given as the idea refuses the create, whatever the limit |
| PipelineProps.CreateOutputBlocked | server/src/index.ts:299-316 | Refused output gives the stub under the `moderation_output` headers; the story is not stored |
| PipelineProps.CreatePersists | server/src/index.ts:319-346 | A passing create with the store on saves the story with exactly its one chapter, touches no other story and audits as passed |
| PipelineProps.CreateStoresOnlyOnSuccess | server/src/index.ts:196-353 | The stories change only when create answers 200 with the generated story, and then only that story |
| PipelineProps.ContinueNeedsOwner | server/src/index.ts:413-416 | A missing story gives 404 and a different owner 403, in that order, with no change |
| PipelineProps.ContinueRefusedReply | server/src/index.ts:429-450 | Refused input gives the stub for the next chapter, or the schema's 400, under the input block headers |
| PipelineProps.ContinueRefusedState | server/src/index.ts:429-439 | A refused continue changes no story and no counter, and records the refusal |
| PipelineProps.ContinueInputBlocked | server/src/index.ts:446-449 | The refused input's stub answers for `BaseIndex + 1` |
| PipelineProps.ContinueNextChapter | server/src/index.ts:462 | The generated chapter is the one after `BaseIndex` |
| PipelineProps.ContinueAppends | server/src/index.ts:494-518 | The persisted chapters are the stored ones plus exactly the new chapter; the stored title and owner are kept; no other story changes |
| PipelineProps.ContinueOutputBlocked | server/src/index.ts:476-491 | Refused output leaves the stories unchanged |
| PipelineProps.ContinueGeneratedReply | server/src/index.ts:520 | An un-blocked story answer is the generated one |
| PipelineProps.ContinueStoresOnlyOnSuccess | server/src/index.ts:355-527 | The stories change only when continue answers 200 with the generated chapter, and then only that story |
| PipelineProps.IllustratePlaceholder | server/src/index.ts:572-616 | An admitted illustrate always answers 200 with the placeholder, marked disabled exactly when the policy switches illustrations off, with the matching audit |
| PipelineProps.PostRoutes | server/src/index.ts:637-647 | Only `POST /` reads the action; each route runs its own handler with its own path |
| PipelineProps.ActionIsNormalised | server/src/index.ts:638 | The action is trimmed and lower-cased |
| PipelineProps.NoActionUnsupported | server/src/index.ts:642 | A body without an action gets 400 |

## Left out

- The Express wiring is not modelled: `helmet`, `cors`, the JSON body parser, the coarse `express-rate-limit`, `/healthz` and `listen`. `PostTarget` names the handler a route runs; no member composes routing with the handlers.
- Several library and network calls are modelled as parameters of the call, taken as given: `JSON.parse`, base64 decoding, `fetch`, the Vertex/Gemini calls, Google access tokens and Firebase token verification. Three paths where these throw and the raw error propagates are not modelled: a rejected `fetch` (`server/src/vertexImage.ts:83`), a response body that is not JSON making `resp.json()` throw (`server/src/vertexImage.ts:102`), and a throwing `getClient`/`getAccessToken` (`server/src/vertexImage.ts:60-62`). `HttpOutcome` and the token parameter have no case for them.
- `randomUUID` and `Date.now` are also parameters, and the conversion from epoch milliseconds to a UTC date is not modelled.
- `withTimeout` and the request timeout are not modelled; they concern asynchrony and timers.
- The model's temperature and the other float knobs are not modelled. Progress is a `real` that is only clamped.
- String lengths count Unicode scalar values, not UTF-16 code units.
- Lower-casing is ASCII. The words the code compares against are ASCII, and no non-ASCII character lower-cases into them.
- Firestore transactions, atomicity and concurrent requests are not modelled. The store is sequential and in memory.
- Audit write failures are swallowed by the source, so an audit write is modelled as always succeeding.
- Env.ParseNumber: reads only optionally signed decimal integers. Other `Number` forms (hex, exponents, fractions, `Infinity`) are not modelled.
- VertexImage.MimeTypeOf: the `toString` of a non-string mime type is a parameter.
- ImagePrompt.BuildImagePrompt: the final `trim` of the prompt is omitted. `PromptTextTrimmed` proves it changes nothing.
- The header fallbacks (`authorization ?? Authorization`) collapse into one optional header, because Node lower-cases header names.
- Moderation is a pure function, so the statelessness property is immediate and has no lemma of its own.
- A schema error raised while validating the model's own output reaches the handler's `catch` and becomes 400, as in the code.
- An empty model allow-list is accepted by the policy schema; `SelectModel` then gives none, as `allowlist[0]` does.
- The model chosen by `SelectModel` (`server/src/index.ts:226` and `385`) only configures the Gemini call, whose reply is a parameter of the handlers. So the handler specifications do not use the selection or `Config.geminiModel`, and no behaviour depends on them.
- Store.TopDesc: the database's descending sort is modelled over distinct chapter indexes, one document per index.
- JsonText.SortedKeys: a parsed object is a map, so `JSON.stringify` of a client-supplied choice payload writes its members in ascending key order rather than insertion order.
- Two test expectations contradict the schemas and are not modelled:
  - `server/src/__tests__/app.test.ts:72-80` expects 400 for an unknown key, but CreateRequest passes unknown keys through.
  - `server/src/__tests__/app.test.ts:97-106` omits the chapter index that IllustrateRequest requires.
- The commented-out legacy server after line 650 of `server/src/index.ts` is dead code and is not modelled.
- `getStoryMeta` (`server/src/firestoreStore.ts:111-130`) is not modelled: the handlers read the story document directly, which is what `StoryDocOf` models.
- `logging.ts`, `firebase.ts` and `vertex.ts` are not part of this model.
