/** The request and response shapes of the story API, as validators from a
    parsed JSON body to typed records. Following the schema library's
    semantics: `.trim()` runs before the length checks and its result is
    what the record holds; `.optional()` accepts a missing member but not
    `null`; a passthrough object keeps unknown members, a strict object
    rejects them, and a plain object drops them. */
module Schemas {
  import opened Base
  import opened Text
  import opened Errors

  // ---------------------------------------------------------------------
  // Enumerations
  // ---------------------------------------------------------------------

  datatype Lang = Ru | En | Hy

  function ParseLang(s: string): (r: Option<Lang>)
    ensures r.Some? <==> s == "ru" || s == "en" || s == "hy"
  {
    if s == "ru" then Some(Ru) else if s == "en" then Some(En) else if s == "hy" then Some(Hy) else None
  }

  function LangCode(l: Lang): (s: string)
    ensures ParseLang(s) == Some(l)
  {
    match l case Ru => "ru" case En => "en" case Hy => "hy"
  }

  datatype AgeGroup = Age3to5 | Age6to8 | Age9to12

  function ParseAgeGroup(s: string): (r: Option<AgeGroup>)
    ensures r.Some? <==> s == "3_5" || s == "6_8" || s == "9_12"
  {
    if s == "3_5" then Some(Age3to5) else if s == "6_8" then Some(Age6to8)
    else if s == "9_12" then Some(Age9to12) else None
  }

  function AgeGroupCode(g: AgeGroup): (s: string)
    ensures ParseAgeGroup(s) == Some(g)
  {
    match g case Age3to5 => "3_5" case Age6to8 => "6_8" case Age9to12 => "9_12"
  }

  datatype StoryLength = Short | Medium | Long

  function ParseStoryLength(s: string): (r: Option<StoryLength>)
    ensures r.Some? <==> s == "short" || s == "medium" || s == "long"
  {
    if s == "short" then Some(Short) else if s == "medium" then Some(Medium)
    else if s == "long" then Some(Long) else None
  }

  function StoryLengthCode(l: StoryLength): (s: string)
    ensures ParseStoryLength(s) == Some(l)
  {
    match l case Short => "short" case Medium => "medium" case Long => "long"
  }

  datatype ImageSize = Square1080 | Wide1280

  function ParseImageSize(s: string): (r: Option<ImageSize>)
    ensures r.Some? <==> s == "1080x1080" || s == "1280x720"
  {
    if s == "1080x1080" then Some(Square1080) else if s == "1280x720" then Some(Wide1280) else None
  }

  datatype AspectRatio = Ratio1to1 | Ratio16to9

  function ParseAspectRatio(s: string): (r: Option<AspectRatio>)
    ensures r.Some? <==> s == "1:1" || s == "16:9"
  {
    if s == "1:1" then Some(Ratio1to1) else if s == "16:9" then Some(Ratio16to9) else None
  }

  // ---------------------------------------------------------------------
  // Members of an object
  // ---------------------------------------------------------------------

  function Norm(s: string, trim: bool): string { if trim then Trim(s) else s }

  /** A required string member, trimmed when `trim`, of length lo..hi. */
  function StrIn(o: map<string, Json>, key: string, trim: bool, lo: nat, hi: nat): (r: Result<string, Thrown>)
    ensures r.Ok? <==> key in o && o[key].JStr? && lo <= |Norm(o[key].s, trim)| <= hi
    ensures r.Ok? ==> r.value == Norm(o[key].s, trim)
  {
    if key in o && o[key].JStr? && lo <= |Norm(o[key].s, trim)| <= hi then Ok(Norm(o[key].s, trim))
    else Err(SchemaErr(key))
  }

  function OptStrIn(o: map<string, Json>, key: string, trim: bool, lo: nat, hi: nat): (r: Result<Option<string>, Thrown>)
    ensures key !in o ==> r == Ok(None)
    ensures key in o ==> (r.Ok? <==> o[key].JStr? && lo <= |Norm(o[key].s, trim)| <= hi)
    ensures key in o && r.Ok? ==> r.value == Some(Norm(o[key].s, trim))
  {
    if key !in o then Ok(None)
    else var s :- StrIn(o, key, trim, lo, hi); Ok(Some(s))
  }

  /** `z.string()` with no bounds. */
  function Str(o: map<string, Json>, key: string): (r: Result<string, Thrown>)
    ensures r.Ok? <==> key in o && o[key].JStr?
    ensures r.Ok? ==> o[key] == JStr(r.value)
  {
    if key in o && o[key].JStr? then Ok(o[key].s) else Err(SchemaErr(key))
  }

  /** `z.string().optional()` with no bounds. */
  function OptStr(o: map<string, Json>, key: string): (r: Result<Option<string>, Thrown>)
    ensures key !in o ==> r == Ok(None)
    ensures key in o ==> (r.Ok? <==> o[key].JStr?)
    ensures key in o && r.Ok? ==> r.value == Some(o[key].s)
  {
    if key !in o then Ok(None) else if o[key].JStr? then Ok(Some(o[key].s)) else Err(SchemaErr(key))
  }

  /** `z.number().int().min(lo).max(hi)`. */
  function IntIn(o: map<string, Json>, key: string, lo: int, hi: int): (r: Result<int, Thrown>)
    ensures r.Ok? <==> key in o && o[key].JNum? && IsInteger(o[key].n) && lo as real <= o[key].n <= hi as real
    ensures r.Ok? ==> o[key] == JNum(r.value as real) && lo <= r.value <= hi
  {
    if key in o && o[key].JNum? && IsInteger(o[key].n) && lo as real <= o[key].n <= hi as real then Ok(o[key].n.Floor)
    else Err(SchemaErr(key))
  }

  function OptIntIn(o: map<string, Json>, key: string, lo: int, hi: int): (r: Result<Option<int>, Thrown>)
    ensures key !in o ==> r == Ok(None)
    ensures key in o ==> (r.Ok? <==> o[key].JNum? && IsInteger(o[key].n) && lo as real <= o[key].n <= hi as real)
    ensures key in o && r.Ok? ==> r.value.Some? && o[key] == JNum(r.value.value as real) && lo <= r.value.value <= hi
  {
    if key !in o then Ok(None)
    else var n :- IntIn(o, key, lo, hi); Ok(Some(n))
  }

  /** `z.number().min(lo).max(hi)`. */
  function RealIn(o: map<string, Json>, key: string, lo: real, hi: real): (r: Result<real, Thrown>)
    ensures r.Ok? <==> key in o && o[key].JNum? && lo <= o[key].n <= hi
    ensures r.Ok? ==> o[key] == JNum(r.value)
  {
    if key in o && o[key].JNum? && lo <= o[key].n <= hi then Ok(o[key].n) else Err(SchemaErr(key))
  }

  function OptRealIn(o: map<string, Json>, key: string, lo: real, hi: real): (r: Result<Option<real>, Thrown>)
    ensures key !in o ==> r == Ok(None)
    ensures key in o ==> (r.Ok? <==> o[key].JNum? && lo <= o[key].n <= hi)
    ensures key in o && r.Ok? ==> r.value == Some(o[key].n)
  {
    if key !in o then Ok(None)
    else var n :- RealIn(o, key, lo, hi); Ok(Some(n))
  }

  function BoolOf(o: map<string, Json>, key: string): (r: Result<bool, Thrown>)
    ensures r.Ok? <==> key in o && o[key].JBool?
    ensures r.Ok? ==> o[key] == JBool(r.value)
  {
    if key in o && o[key].JBool? then Ok(o[key].b) else Err(SchemaErr(key))
  }

  function OptBool(o: map<string, Json>, key: string): (r: Result<Option<bool>, Thrown>)
    ensures key !in o ==> r == Ok(None)
    ensures key in o ==> (r.Ok? <==> o[key].JBool?)
    ensures key in o && r.Ok? ==> r.value == Some(o[key].b)
  {
    if key !in o then Ok(None)
    else var b :- BoolOf(o, key); Ok(Some(b))
  }

  /** `z.record(z.any())`: any object (not an array, not null). */
  function OptRecord(o: map<string, Json>, key: string): (r: Result<Option<map<string, Json>>, Thrown>)
    ensures key !in o ==> r == Ok(None)
    ensures key in o ==> (r.Ok? <==> o[key].JObj?)
    ensures key in o && r.Ok? ==> r.value == Some(o[key].fields)
  {
    if key !in o then Ok(None) else if o[key].JObj? then Ok(Some(o[key].fields)) else Err(SchemaErr(key))
  }

  /** `z.literal(lit).optional()`. */
  function OptLiteral(o: map<string, Json>, key: string, lit: string): (r: Result<Option<string>, Thrown>)
    ensures r.Ok? <==> key !in o || o[key] == JStr(lit)
  {
    if key !in o then Ok(None) else if o[key] == JStr(lit) then Ok(Some(lit)) else Err(SchemaErr(key))
  }

  function OptLang(o: map<string, Json>, key: string): (r: Result<Option<Lang>, Thrown>)
    ensures key !in o ==> r == Ok(None)
    ensures key in o ==> (r.Ok? <==> o[key].JStr? && ParseLang(o[key].s).Some?)
    ensures key in o && r.Ok? ==> r.value.Some? && o[key] == JStr(LangCode(r.value.value))
  {
    if key !in o then Ok(None)
    else if o[key].JStr? && ParseLang(o[key].s).Some? then
      var l := ParseLang(o[key].s).value;
      assert LangCode(l) == o[key].s;
      Ok(Some(l))
    else Err(SchemaErr(key))
  }

  function OptAgeGroup(o: map<string, Json>, key: string): (r: Result<Option<AgeGroup>, Thrown>)
    ensures key !in o ==> r == Ok(None)
    ensures key in o ==> (r.Ok? <==> o[key].JStr? && ParseAgeGroup(o[key].s).Some?)
  {
    if key !in o then Ok(None)
    else if o[key].JStr? && ParseAgeGroup(o[key].s).Some? then Ok(ParseAgeGroup(o[key].s))
    else Err(SchemaErr(key))
  }

  function OptStoryLength(o: map<string, Json>, key: string): (r: Result<Option<StoryLength>, Thrown>)
    ensures key !in o ==> r == Ok(None)
    ensures key in o ==> (r.Ok? <==> o[key].JStr? && ParseStoryLength(o[key].s).Some?)
  {
    if key !in o then Ok(None)
    else if o[key].JStr? && ParseStoryLength(o[key].s).Some? then Ok(ParseStoryLength(o[key].s))
    else Err(SchemaErr(key))
  }

  /** The members of `o` named in `keys`. */
  function Restrict(o: map<string, Json>, keys: set<string>): map<string, Json> {
    map k | k in o && k in keys :: o[k]
  }

  /** The members of `o` not named in `keys`: what a passthrough object keeps. */
  function Unknown(o: map<string, Json>, keys: set<string>): map<string, Json> {
    map k | k in o && k !in keys :: o[k]
  }

  lemma RestrictIgnoresUnknown(o: map<string, Json>, keys: set<string>, x: string, v: Json)
    requires x !in keys
    ensures Restrict(o[x := v], keys) == Restrict(o, keys)
    ensures Unknown(o[x := v], keys) == Unknown(o, keys)[x := v]
  {
  }

  // ---------------------------------------------------------------------
  // Nested request objects
  // ---------------------------------------------------------------------

  /** `meta`: a passthrough object with an optional `userInitiated`. */
  datatype Meta = Meta(userInitiated: Option<bool>, extra: map<string, Json>)

  const MetaKeys: set<string> := {"userInitiated"}

  function ParseMeta(j: Json): (r: Result<Meta, Thrown>)
    ensures r.Ok? ==> j.JObj? && r.value.extra == Unknown(j.fields, MetaKeys)
  {
    if !j.JObj? then Err(SchemaErr("meta"))
    else
      var u :- OptBool(Restrict(j.fields, MetaKeys), "userInitiated");
      Ok(Meta(u, Unknown(j.fields, MetaKeys)))
  }

  function OptMeta(o: map<string, Json>): Result<Option<Meta>, Thrown> {
    if "meta" !in o then Ok(None) else var m :- ParseMeta(o["meta"]); Ok(Some(m))
  }

  /** `image` of a create or continue request: a strict object. */
  datatype ImageToggle = ImageToggle(enabled: Option<bool>)

  function ParseToggle(j: Json): (r: Result<ImageToggle, Thrown>)
    ensures r.Ok? <==> j.JObj? && j.fields.Keys <= {"enabled"} && ("enabled" in j.fields ==> j.fields["enabled"].JBool?)
  {
    if !j.JObj? || !(j.fields.Keys <= {"enabled"}) then Err(SchemaErr("image"))
    else var e :- OptBool(j.fields, "enabled"); Ok(ImageToggle(e))
  }

  function OptToggle(o: map<string, Json>): (r: Result<Option<ImageToggle>, Thrown>)
    ensures "image" in o && r.Ok? ==> o["image"].JObj? && o["image"].fields.Keys <= {"enabled"}
  {
    if "image" !in o then Ok(None) else var t :- ParseToggle(o["image"]); Ok(Some(t))
  }

  /** `selection`: a passthrough object of short texts. */
  datatype Selection = Selection(hero: Option<string>, location: Option<string>, style: Option<string>, extra: map<string, Json>)

  const SelectionKeys: set<string> := {"hero", "location", "style"}

  function ParseSelection(j: Json): (r: Result<Selection, Thrown>)
    ensures r.Ok? ==> j.JObj? && r.value.extra == Unknown(j.fields, SelectionKeys)
    ensures r.Ok? ==> forall s :: s in {r.value.hero, r.value.location, r.value.style} && s.Some? ==> |s.value| <= 200
  {
    if !j.JObj? then Err(SchemaErr("selection"))
    else
      var o := Restrict(j.fields, SelectionKeys);
      var hero :- OptStrIn(o, "hero", true, 0, 200);
      var location :- OptStrIn(o, "location", true, 0, 200);
      var style :- OptStrIn(o, "style", true, 0, 200);
      Ok(Selection(hero, location, style, Unknown(j.fields, SelectionKeys)))
  }

  function OptSelection(o: map<string, Json>): Result<Option<Selection>, Thrown> {
    if "selection" !in o then Ok(None) else var s :- ParseSelection(o["selection"]); Ok(Some(s))
  }

  /** `choice` of a continue request: a passthrough object. */
  datatype ChoiceInput = ChoiceInput(
    id: Option<string>, labelText: Option<string>, choiceIndex: Option<int>, text: Option<string>,
    payload: Option<map<string, Json>>, extra: map<string, Json>)

  const ChoiceInputKeys: set<string> := {"id", "label", "choiceIndex", "text", "payload"}

  function ParseChoiceInput(j: Json): (r: Result<ChoiceInput, Thrown>)
    ensures r.Ok? ==> j.JObj? && r.value.extra == Unknown(j.fields, ChoiceInputKeys)
    ensures r.Ok? && r.value.choiceIndex.Some? ==> 0 <= r.value.choiceIndex.value <= 9
    ensures r.Ok? && r.value.labelText.Some? ==> |r.value.labelText.value| <= 200
    ensures r.Ok? && r.value.text.Some? ==> |r.value.text.value| <= 200
  {
    if !j.JObj? then Err(SchemaErr("choice"))
    else
      var o := Restrict(j.fields, ChoiceInputKeys);
      var id :- OptStrIn(o, "id", true, 0, 64);
      var labelText :- OptStrIn(o, "label", true, 0, 200);
      var index :- OptIntIn(o, "choiceIndex", 0, 9);
      var text :- OptStrIn(o, "text", true, 0, 200);
      var payload :- OptRecord(o, "payload");
      Ok(ChoiceInput(id, labelText, index, text, payload, Unknown(j.fields, ChoiceInputKeys)))
  }

  /** The parsed choice as the object the handler serialises: known members
      that were given, in declaration order, then the unknown ones. */
  function ChoiceInputJson(c: ChoiceInput): Json {
    var known :=
      (if c.id.Some? then map["id" := JStr(c.id.value)] else map[])
      + (if c.labelText.Some? then map["label" := JStr(c.labelText.value)] else map[])
      + (if c.choiceIndex.Some? then map["choiceIndex" := JNum(c.choiceIndex.value as real)] else map[])
      + (if c.text.Some? then map["text" := JStr(c.text.value)] else map[])
      + (if c.payload.Some? then map["payload" := JObj(c.payload.value)] else map[]);
    JObj(c.extra + known)
  }

  /** `image` of an illustrate request: a passthrough object. */
  datatype ImageOptions = ImageOptions(size: Option<ImageSize>, aspectRatio: Option<AspectRatio>, style: Option<string>, extra: map<string, Json>)

  const ImageOptionsKeys: set<string> := {"size", "aspectRatio", "style"}

  function ParseImageOptions(j: Json): (r: Result<ImageOptions, Thrown>)
    ensures r.Ok? ==> j.JObj? && r.value.extra == Unknown(j.fields, ImageOptionsKeys)
    ensures r.Ok? && r.value.style.Some? ==> |r.value.style.value| <= 64
  {
    if !j.JObj? then Err(SchemaErr("image"))
    else
      var o := Restrict(j.fields, ImageOptionsKeys);
      var size :- (if "size" !in o then Ok(None)
                   else if o["size"].JStr? && ParseImageSize(o["size"].s).Some? then Ok(ParseImageSize(o["size"].s))
                   else Err(SchemaErr("size")));
      var ratio :- (if "aspectRatio" !in o then Ok(None)
                    else if o["aspectRatio"].JStr? && ParseAspectRatio(o["aspectRatio"].s).Some? then Ok(ParseAspectRatio(o["aspectRatio"].s))
                    else Err(SchemaErr("aspectRatio")));
      var style :- OptStrIn(o, "style", true, 0, 64);
      Ok(ImageOptions(size, ratio, style, Unknown(j.fields, ImageOptionsKeys)))
  }

  // ---------------------------------------------------------------------
  // Requests
  // ---------------------------------------------------------------------

  datatype CreateRequest = CreateRequest(
    requestId: Option<string>, meta: Option<Meta>, storyId: Option<string>,
    ageGroup: Option<AgeGroup>, storyLang: Option<Lang>, storyLength: Option<StoryLength>,
    creativityLevel: Option<real>, image: Option<ImageToggle>, selection: Option<Selection>,
    idea: Option<string>, prompt: Option<string>, extra: map<string, Json>)

  const CreateKeys: set<string> := {
    "requestId", "meta", "storyId", "ageGroup", "storyLang", "storyLength", "creativityLevel",
    "image", "selection", "idea", "prompt", "action"
  }

  /** The known members of a create request, read from `o`. */
  function CreateFields(o: map<string, Json>): (r: Result<CreateRequest, Thrown>)
    ensures r.Ok? && r.value.requestId.Some? ==> |r.value.requestId.value| <= 64
    ensures r.Ok? && r.value.storyId.Some? ==> 1 <= |r.value.storyId.value| <= 128
    ensures r.Ok? && r.value.creativityLevel.Some? ==> 0.0 <= r.value.creativityLevel.value <= 1.0
    ensures r.Ok? && r.value.idea.Some? ==> |r.value.idea.value| <= 1200
    ensures r.Ok? && "image" in o ==> o["image"].JObj? && o["image"].fields.Keys <= {"enabled"}
    ensures r.Ok? ==> "action" !in o || o["action"] == JStr("generate")
  {
    var requestId :- OptStrIn(o, "requestId", true, 0, 64);
    var meta :- OptMeta(o);
    var storyId :- OptStrIn(o, "storyId", true, 1, 128);
    var ageGroup :- OptAgeGroup(o, "ageGroup");
    var storyLang :- OptLang(o, "storyLang");
    var storyLength :- OptStoryLength(o, "storyLength");
    var creativity :- OptRealIn(o, "creativityLevel", 0.0, 1.0);
    var image :- OptToggle(o);
    var selection :- OptSelection(o);
    var idea :- OptStrIn(o, "idea", true, 0, 1200);
    var prompt :- OptStrIn(o, "prompt", true, 0, 1200);
    var action :- OptLiteral(o, "action", "generate");
    Ok(CreateRequest(requestId, meta, storyId, ageGroup, storyLang, storyLength, creativity, image, selection, idea, prompt, map[]))
  }

  /** `CreateRequestSchema.parse(body)`: a passthrough object. */
  function ParseCreate(j: Json): (r: Result<CreateRequest, Thrown>)
    ensures r.Ok? ==> j.JObj? && r.value.extra == Unknown(j.fields, CreateKeys)
    ensures r.Ok? && "image" in j.fields ==> j.fields["image"].JObj? && j.fields["image"].fields.Keys <= {"enabled"}
    ensures r.Ok? && r.value.requestId.Some? ==> |r.value.requestId.value| <= 64
    ensures r.Ok? && r.value.idea.Some? ==> |r.value.idea.value| <= 1200
  {
    if !j.JObj? then Err(SchemaErr(""))
    else
      var r :- CreateFields(Restrict(j.fields, CreateKeys));
      Ok(r.(extra := Unknown(j.fields, CreateKeys)))
  }

  /** A member outside the schema never decides a create request's fate,
      and it is kept as given. */
  lemma CreatePassthrough(o: map<string, Json>, x: string, v: Json)
    requires x !in CreateKeys
    ensures ParseCreate(JObj(o[x := v])).Ok? <==> ParseCreate(JObj(o)).Ok?
    ensures ParseCreate(JObj(o)).Ok? ==>
      ParseCreate(JObj(o[x := v])) == Ok(ParseCreate(JObj(o)).value.(extra := Unknown(o, CreateKeys)[x := v]))
  {
    RestrictIgnoresUnknown(o, CreateKeys, x, v);
  }

  datatype ContinueRequest = ContinueRequest(
    requestId: Option<string>, meta: Option<Meta>, storyId: string, chapterIndex: Option<int>,
    choice: Option<ChoiceInput>, ageGroup: Option<AgeGroup>, storyLang: Option<Lang>,
    storyLength: Option<StoryLength>, creativityLevel: Option<real>, image: Option<ImageToggle>,
    selection: Option<Selection>, idea: Option<string>, extra: map<string, Json>)

  const ContinueKeys: set<string> := {
    "requestId", "meta", "storyId", "chapterIndex", "choice", "ageGroup", "storyLang", "storyLength",
    "creativityLevel", "image", "selection", "idea", "action"
  }

  function ContinueFields(o: map<string, Json>): (r: Result<ContinueRequest, Thrown>)
    ensures r.Ok? ==> "storyId" in o && 1 <= |r.value.storyId| <= 128 && IsTrimmed(r.value.storyId)
    ensures r.Ok? && r.value.chapterIndex.Some? ==> 0 <= r.value.chapterIndex.value <= 99
    ensures r.Ok? && "image" in o ==> o["image"].JObj? && o["image"].fields.Keys <= {"enabled"}
    ensures r.Ok? ==> "action" !in o || o["action"] == JStr("continue")
    ensures r.Ok? && r.value.choice.Some? && r.value.choice.value.labelText.Some? ==> |r.value.choice.value.labelText.value| <= 200
    ensures r.Ok? && r.value.choice.Some? && r.value.choice.value.text.Some? ==> |r.value.choice.value.text.value| <= 200
    ensures r.Ok? && r.value.choice.Some? && r.value.choice.value.choiceIndex.Some? ==> 0 <= r.value.choice.value.choiceIndex.value <= 9
  {
    var requestId :- OptStrIn(o, "requestId", true, 0, 64);
    var meta :- OptMeta(o);
    var storyId :- StrIn(o, "storyId", true, 1, 128);
    var chapterIndex :- OptIntIn(o, "chapterIndex", 0, 99);
    var choice :- (if "choice" !in o then Ok(None) else var c :- ParseChoiceInput(o["choice"]); Ok(Some(c)));
    var ageGroup :- OptAgeGroup(o, "ageGroup");
    var storyLang :- OptLang(o, "storyLang");
    var storyLength :- OptStoryLength(o, "storyLength");
    var creativity :- OptRealIn(o, "creativityLevel", 0.0, 1.0);
    var image :- OptToggle(o);
    var selection :- OptSelection(o);
    var idea :- OptStrIn(o, "idea", true, 0, 1200);
    var action :- OptLiteral(o, "action", "continue");
    Ok(ContinueRequest(requestId, meta, storyId, chapterIndex, choice, ageGroup, storyLang, storyLength,
                       creativity, image, selection, idea, map[]))
  }

  /** `ContinueRequestSchema.parse(body)`: a passthrough object that needs a `storyId`. */
  function ParseContinue(j: Json): (r: Result<ContinueRequest, Thrown>)
    ensures r.Ok? ==> j.JObj? && "storyId" in j.fields && r.value.extra == Unknown(j.fields, ContinueKeys)
    ensures r.Ok? ==> 1 <= |r.value.storyId| <= 128 && IsTrimmed(r.value.storyId)
    ensures r.Ok? && r.value.chapterIndex.Some? ==> 0 <= r.value.chapterIndex.value <= 99
    ensures r.Ok? && "image" in j.fields ==> j.fields["image"].JObj? && j.fields["image"].fields.Keys <= {"enabled"}
  {
    if !j.JObj? then Err(SchemaErr(""))
    else
      var r :- ContinueFields(Restrict(j.fields, ContinueKeys));
      Ok(r.(extra := Unknown(j.fields, ContinueKeys)))
  }

  lemma ContinuePassthrough(o: map<string, Json>, x: string, v: Json)
    requires x !in ContinueKeys
    ensures ParseContinue(JObj(o[x := v])).Ok? <==> ParseContinue(JObj(o)).Ok?
    ensures ParseContinue(JObj(o)).Ok? ==>
      ParseContinue(JObj(o[x := v])) == Ok(ParseContinue(JObj(o)).value.(extra := Unknown(o, ContinueKeys)[x := v]))
  {
    RestrictIgnoresUnknown(o, ContinueKeys, x, v);
  }

  datatype IllustrateRequest = IllustrateRequest(
    requestId: Option<string>, meta: Option<Meta>, storyId: string, storyLang: Option<Lang>,
    ageGroup: Option<AgeGroup>, image: Option<ImageOptions>, chapterIndex: int, prompt: string,
    extra: map<string, Json>)

  const IllustrateKeys: set<string> := {
    "action", "requestId", "meta", "storyId", "storyLang", "ageGroup", "image", "chapterIndex", "prompt"
  }

  function IllustrateFields(o: map<string, Json>): (r: Result<IllustrateRequest, Thrown>)
    ensures r.Ok? ==> "storyId" in o && 1 <= |r.value.storyId| <= 128 && IsTrimmed(r.value.storyId)
    ensures r.Ok? ==> "chapterIndex" in o && 0 <= r.value.chapterIndex <= 99
    ensures r.Ok? ==> "prompt" in o && 1 <= |r.value.prompt| <= 1200 && IsTrimmed(r.value.prompt)
    ensures r.Ok? ==> o["prompt"].JStr? && r.value.prompt == Trim(o["prompt"].s)
  {
    var action :- OptLiteral(o, "action", "illustrate");
    var requestId :- OptStrIn(o, "requestId", true, 0, 64);
    var meta :- OptMeta(o);
    var storyId :- StrIn(o, "storyId", true, 1, 128);
    var storyLang :- OptLang(o, "storyLang");
    var ageGroup :- OptAgeGroup(o, "ageGroup");
    var image :- (if "image" !in o then Ok(None) else var m :- ParseImageOptions(o["image"]); Ok(Some(m)));
    var chapterIndex :- IntIn(o, "chapterIndex", 0, 99);
    var prompt :- StrIn(o, "prompt", true, 1, 1200);
    Ok(IllustrateRequest(requestId, meta, storyId, storyLang, ageGroup, image, chapterIndex, prompt, map[]))
  }

  /** `IllustrateRequestSchema.parse(body)`: a passthrough object that
      needs a `storyId`, a `chapterIndex` and a non-blank `prompt`. */
  function ParseIllustrate(j: Json): (r: Result<IllustrateRequest, Thrown>)
    ensures r.Ok? ==> j.JObj? && r.value.extra == Unknown(j.fields, IllustrateKeys)
    ensures r.Ok? ==> "storyId" in j.fields && "chapterIndex" in j.fields && "prompt" in j.fields
    ensures r.Ok? ==> 0 <= r.value.chapterIndex <= 99 && 1 <= |r.value.prompt| <= 1200
    ensures r.Ok? ==> j.fields["prompt"].JStr? && r.value.prompt == Trim(j.fields["prompt"].s)
  {
    if !j.JObj? then Err(SchemaErr(""))
    else
      var r :- IllustrateFields(Restrict(j.fields, IllustrateKeys));
      Ok(r.(extra := Unknown(j.fields, IllustrateKeys)))
  }

  lemma IllustratePassthrough(o: map<string, Json>, x: string, v: Json)
    requires x !in IllustrateKeys
    ensures ParseIllustrate(JObj(o[x := v])).Ok? <==> ParseIllustrate(JObj(o)).Ok?
    ensures ParseIllustrate(JObj(o)).Ok? ==>
      ParseIllustrate(JObj(o[x := v])) == Ok(ParseIllustrate(JObj(o)).value.(extra := Unknown(o, IllustrateKeys)[x := v]))
  {
    RestrictIgnoresUnknown(o, IllustrateKeys, x, v);
  }

  /** A whitespace-only prompt is refused: trimming runs before `min(1)`. */
  lemma BlankPromptRefused(o: map<string, Json>, p: string)
    requires AllSpace(p)
    ensures ParseIllustrate(JObj(o["prompt" := JStr(p)])).Err?
  {
    assert Trim(p) == [];
  }


  // ---------------------------------------------------------------------
  // Responses
  // ---------------------------------------------------------------------

  /** `z.string().nullable().optional()`. */
  function NullableStr(o: map<string, Json>, key: string): (r: Result<Field<string>, Thrown>)
    ensures key !in o ==> r == Ok(Absent)
    ensures key in o ==> (r.Ok? <==> o[key].JNull? || o[key].JStr?)
    ensures key in o && r.Ok? ==> (r.value.Null? <==> o[key].JNull?) && (r.value.Present? ==> o[key] == JStr(r.value.value))
  {
    if key !in o then Ok(Absent)
    else if o[key].JNull? then Ok(Null)
    else if o[key].JStr? then Ok(Present(o[key].s))
    else Err(SchemaErr(key))
  }

  /** `image` of an agent response. */
  datatype ImageInfo = ImageInfo(
    enabled: bool, url: Field<string>, base64: Option<string>, mimeType: Option<string>,
    disabled: Option<bool>, reason: Option<string>, prompt: Option<string>, storagePath: Option<string>)

  const ImageInfoKeys: set<string> := {"enabled", "url", "base64", "mimeType", "disabled", "reason", "prompt", "storagePath"}

  function ImageInfoFields(o: map<string, Json>): (r: Result<ImageInfo, Thrown>)
    ensures r.Ok? ==> "enabled" in o && o["enabled"] == JBool(r.value.enabled)
    ensures r.Ok? ==> ("url" !in o <==> r.value.url.Absent?)
    ensures r.Ok? ==> ("url" in o && o["url"].JNull? <==> r.value.url.Null?)
    ensures r.Ok? && r.value.url.Present? ==> "url" in o && o["url"] == JStr(r.value.url.value)
  {
    var enabled :- BoolOf(o, "enabled");
    var url :- NullableStr(o, "url");
    var base64 :- OptStr(o, "base64");
    var mimeType :- OptStr(o, "mimeType");
    var disabled :- OptBool(o, "disabled");
    var reason :- OptStr(o, "reason");
    var prompt :- OptStr(o, "prompt");
    var storagePath :- OptStr(o, "storagePath");
    Ok(ImageInfo(enabled, url, base64, mimeType, disabled, reason, prompt, storagePath))
  }

  /** A plain object: members outside the shape are dropped. */
  function DecodeImageInfo(j: Json): (r: Result<ImageInfo, Thrown>)
    ensures r.Ok? ==> j.JObj? && "enabled" in j.fields && j.fields["enabled"] == JBool(r.value.enabled)
    ensures r.Ok? ==> ("url" !in j.fields <==> r.value.url.Absent?)
    ensures r.Ok? ==> ("url" in j.fields && j.fields["url"].JNull? <==> r.value.url.Null?)
    ensures r.Ok? && r.value.url.Present? ==> j.fields["url"] == JStr(r.value.url.value)
  {
    if !j.JObj? then Err(SchemaErr("image")) else ImageInfoFields(Restrict(j.fields, ImageInfoKeys))
  }

  /** Unknown members of `image` are dropped, never refused. */
  lemma ImageInfoStrips(o: map<string, Json>, x: string, v: Json)
    requires x !in ImageInfoKeys
    ensures DecodeImageInfo(JObj(o[x := v])) == DecodeImageInfo(JObj(o))
  {
    RestrictIgnoresUnknown(o, ImageInfoKeys, x, v);
  }

  /** One offered choice of an agent response. */
  datatype Choice = Choice(id: string, labelText: string, payload: map<string, Json>)

  /** The types a choice needs: string `id` and `label`, and an object
      `payload` when there is one. */
  predicate ChoiceTyped(j: Json) {
    && j.JObj?
    && "id" in j.fields && j.fields["id"].JStr?
    && "label" in j.fields && j.fields["label"].JStr?
    && ("payload" in j.fields ==> j.fields["payload"].JObj?)
  }

  /** `{id, label, payload}` with `payload` defaulting to `{}`; other
      members are dropped. */
  function DecodeChoice(j: Json): (r: Result<Choice, Thrown>)
    ensures r.Ok? <==> ChoiceTyped(j)
    ensures r.Ok? ==> j.fields["id"] == JStr(r.value.id) && j.fields["label"] == JStr(r.value.labelText)
    ensures r.Ok? && "payload" !in j.fields ==> r.value.payload == map[]
    ensures r.Ok? && "payload" in j.fields ==> j.fields["payload"] == JObj(r.value.payload)
  {
    if !j.JObj? then Err(SchemaErr("choices"))
    else
      var o := j.fields;
      var id :- Str(o, "id");
      var labelText :- Str(o, "label");
      var payload :- OptRecord(o, "payload");
      Ok(Choice(id, labelText, payload.GetOr(map[])))
  }

  /** Every item decoded as a choice, in order; one bad item fails all. */
  function DecodeChoices(items: seq<Json>): (r: Result<seq<Choice>, Thrown>)
    ensures r.Ok? <==> forall i :: 0 <= i < |items| ==> DecodeChoice(items[i]).Ok?
    ensures r.Ok? ==> |r.value| == |items| && forall i :: 0 <= i < |items| ==> r.value[i] == DecodeChoice(items[i]).value
  {
    if |items| == 0 then Ok([])
    else
      var c :- DecodeChoice(items[0]);
      var rest :- DecodeChoices(items[1..]);
      Ok([c] + rest)
  }

  datatype AgentResponse = AgentResponse(
    requestId: string, storyId: string, chapterIndex: int, progress: real, title: string, text: string,
    image: Field<ImageInfo>, choices: Option<seq<Choice>>)

  const AgentKeys: set<string> := {"requestId", "storyId", "chapterIndex", "progress", "title", "text", "image", "choices"}

  function OptImageInfo(o: map<string, Json>): Result<Field<ImageInfo>, Thrown> {
    if "image" !in o then Ok(Absent)
    else if o["image"].JNull? then Ok(Null)
    else var i :- DecodeImageInfo(o["image"]); Ok(Present(i))
  }

  function OptChoices(o: map<string, Json>): Result<Option<seq<Choice>>, Thrown> {
    if "choices" !in o then Ok(None)
    else if o["choices"].JArr? then var cs :- DecodeChoices(o["choices"].items); Ok(Some(cs))
    else Err(SchemaErr("choices"))
  }

  /** The types of an agent response, before trimming and bounds. */
  function DecodeAgent(j: Json): (r: Result<AgentResponse, Thrown>)
    ensures r.Ok? ==> j.JObj? && j.fields.Keys <= AgentKeys
  {
    if !j.JObj? then Err(SchemaErr(""))
    else if !(j.fields.Keys <= AgentKeys) then Err(SchemaErr("unrecognized_keys"))
    else
      var o := j.fields;
      var requestId :- Str(o, "requestId");
      var storyId :- Str(o, "storyId");
      var chapterIndex :- (if "chapterIndex" in o && o["chapterIndex"].JNum? && IsInteger(o["chapterIndex"].n)
                           then Ok(o["chapterIndex"].n.Floor) else Err(SchemaErr("chapterIndex")));
      var progress :- (if "progress" in o && o["progress"].JNum? then Ok(o["progress"].n) else Err(SchemaErr("progress")));
      var title :- Str(o, "title");
      var text :- Str(o, "text");
      var image :- OptImageInfo(o);
      var choices :- OptChoices(o);
      Ok(AgentResponse(requestId, storyId, chapterIndex, progress, title, text, image, choices))
  }

  /** A trimmed string of length lo..hi. */
  predicate TrimmedIn(s: string, lo: nat, hi: nat) { IsTrimmed(s) && lo <= |s| <= hi }

  predicate ValidChoice(c: Choice) { TrimmedIn(c.id, 1, 64) && TrimmedIn(c.labelText, 1, 80) }

  predicate ValidChoices(cs: seq<Choice>) {
    |cs| <= 3 && forall i :: 0 <= i < |cs| ==> ValidChoice(cs[i])
  }

  /** Everything `AgentResponseSchema` guarantees of what it returns. */
  predicate ValidAgent(a: AgentResponse) {
    TrimmedIn(a.requestId, 1, 128) && TrimmedIn(a.storyId, 1, 128)
    && 0 <= a.chapterIndex <= 99 && 0.0 <= a.progress <= 1.0
    && TrimmedIn(a.title, 0, 140) && TrimmedIn(a.text, 0, 12000)
    && (a.choices.Some? ==> ValidChoices(a.choices.value))
  }

  /** The bounds of the schema, read on the untrimmed input. */
  predicate ChoicesWithinBounds(cs: seq<Choice>) {
    |cs| <= 3 && forall i :: 0 <= i < |cs| ==> 1 <= |Trim(cs[i].id)| <= 64 && 1 <= |Trim(cs[i].labelText)| <= 80
  }

  predicate AgentWithinBounds(a: AgentResponse) {
    1 <= |Trim(a.requestId)| <= 128 && 1 <= |Trim(a.storyId)| <= 128
    && 0 <= a.chapterIndex <= 99 && 0.0 <= a.progress <= 1.0
    && |Trim(a.title)| <= 140 && |Trim(a.text)| <= 12000
    && (a.choices.Some? ==> ChoicesWithinBounds(a.choices.value))
  }

  function NormalizeChoice(c: Choice): Choice {
    c.(id := Trim(c.id), labelText := Trim(c.labelText))
  }

  function NormalizeChoices(cs: seq<Choice>): (r: seq<Choice>)
    ensures |r| == |cs| && forall i :: 0 <= i < |cs| ==> r[i] == NormalizeChoice(cs[i])
    ensures ValidChoices(r) <==> ChoicesWithinBounds(cs)
  {
    seq(|cs|, i requires 0 <= i < |cs| => NormalizeChoice(cs[i]))
  }

  /** The trimming transforms of the schema. */
  function NormalizeAgent(a: AgentResponse): AgentResponse {
    a.(requestId := Trim(a.requestId), storyId := Trim(a.storyId), title := Trim(a.title), text := Trim(a.text),
       choices := if a.choices.Some? then Some(NormalizeChoices(a.choices.value)) else None)
  }

  /** The trimmed response is valid exactly when the untrimmed one is
      within the schema's bounds. */
  lemma NormalizeAgentBounds(a: AgentResponse)
    ensures ValidAgent(NormalizeAgent(a)) <==> AgentWithinBounds(a)
  {
    NormalizedStringsBounds(a);
    NormalizedChoicesBounds(a);
  }

  lemma NormalizedStringsBounds(a: AgentResponse)
    ensures var n := NormalizeAgent(a);
      (TrimmedIn(n.requestId, 1, 128) && TrimmedIn(n.storyId, 1, 128) && TrimmedIn(n.title, 0, 140) && TrimmedIn(n.text, 0, 12000))
      <==> (1 <= |Trim(a.requestId)| <= 128 && 1 <= |Trim(a.storyId)| <= 128 && |Trim(a.title)| <= 140 && |Trim(a.text)| <= 12000)
  {
  }

  lemma NormalizedChoicesBounds(a: AgentResponse)
    ensures var n := NormalizeAgent(a);
      (n.choices.Some? ==> ValidChoices(n.choices.value)) <==> (a.choices.Some? ==> ChoicesWithinBounds(a.choices.value))
  {
  }

  /** The checks of `AgentResponseSchema` on a value of the right shape: the
      trimmed strings within their bounds, the numbers in range, at most
      three well-formed choices. The result holds the trimmed strings. */
  function CheckAgent(a: AgentResponse): (r: Result<AgentResponse, Thrown>)
    ensures r.Ok? <==> AgentWithinBounds(a)
    ensures r.Ok? ==> ValidAgent(r.value)
    ensures r.Ok? ==> r.value.chapterIndex == a.chapterIndex && r.value.progress == a.progress
                      && r.value.image == a.image && r.value.choices.Some? == a.choices.Some?
    ensures r.Err? ==> r.error.SchemaErr?
    ensures r.Ok? ==> r.value == NormalizeAgent(a)
  {
    var n := NormalizeAgent(a);
    NormalizeAgentBounds(a);
    if ValidAgent(n) then Ok(n) else Err(SchemaErr(""))
  }

  lemma NormalizeValidChoices(cs: seq<Choice>)
    requires ValidChoices(cs)
    ensures NormalizeChoices(cs) == cs
  {
    forall i | 0 <= i < |cs| ensures NormalizeChoice(cs[i]) == cs[i] {
      TrimOfTrimmed(cs[i].id);
      TrimOfTrimmed(cs[i].labelText);
    }
  }

  lemma NormalizeValid(a: AgentResponse)
    requires ValidAgent(a)
    ensures NormalizeAgent(a) == a
  {
    TrimOfTrimmed(a.requestId);
    TrimOfTrimmed(a.storyId);
    TrimOfTrimmed(a.title);
    TrimOfTrimmed(a.text);
    if a.choices.Some? { NormalizeValidChoices(a.choices.value); }
  }

  /** A valid response passes the checks unchanged: parsing is idempotent. */
  lemma CheckAgentIdempotent(a: AgentResponse)
    requires ValidAgent(a)
    ensures CheckAgent(a) == Ok(a)
  {
    NormalizeValid(a);
  }

  /** `AgentResponseSchema.parse(j)`: a strict object. */
  function ParseAgent(j: Json): (r: Result<AgentResponse, Thrown>)
    ensures r.Ok? ==> j.JObj? && j.fields.Keys <= AgentKeys && ValidAgent(r.value)
  {
    match DecodeAgent(j)
    case Err(e) => Err(e)
    case Ok(raw) => CheckAgent(raw)
  }

  // The response written as the JSON object it stands for.

  /** `m` with `key` set when `v` holds a value. */
  function Put(m: map<string, Json>, key: string, v: Option<Json>): map<string, Json> {
    if v.Some? then m[key := v.value] else m
  }

  function StrJson(s: Option<string>): Option<Json> { if s.Some? then Some(JStr(s.value)) else None }

  function BoolJson(b: Option<bool>): Option<Json> { if b.Some? then Some(JBool(b.value)) else None }

  function UrlJson(u: Field<string>): Option<Json> {
    match u case Absent => None case Null => Some(JNull) case Present(s) => Some(JStr(s))
  }

  /** The member `k` of `image` as written, if it is written at all. */
  function ImageMember(i: ImageInfo, k: string): Option<Json> {
    if k == "enabled" then Some(JBool(i.enabled))
    else if k == "url" then UrlJson(i.url)
    else if k == "base64" then StrJson(i.base64)
    else if k == "mimeType" then StrJson(i.mimeType)
    else if k == "disabled" then BoolJson(i.disabled)
    else if k == "reason" then StrJson(i.reason)
    else if k == "prompt" then StrJson(i.prompt)
    else if k == "storagePath" then StrJson(i.storagePath)
    else None
  }

  function ImageInfoJson(i: ImageInfo): Json {
    JObj(map k | k in ImageInfoKeys && ImageMember(i, k).Some? :: ImageMember(i, k).value)
  }

  function ChoiceJson(c: Choice): Json {
    JObj(map["id" := JStr(c.id), "label" := JStr(c.labelText), "payload" := JObj(c.payload)])
  }

  function ChoicesJson(cs: seq<Choice>): (r: seq<Json>)
    ensures |r| == |cs| && forall i :: 0 <= i < |cs| ==> r[i] == ChoiceJson(cs[i])
  {
    seq(|cs|, i requires 0 <= i < |cs| => ChoiceJson(cs[i]))
  }

  function AgentJson(a: AgentResponse): Json {
    var m0 := map[
      "requestId" := JStr(a.requestId), "storyId" := JStr(a.storyId),
      "chapterIndex" := JNum(a.chapterIndex as real), "progress" := JNum(a.progress),
      "title" := JStr(a.title), "text" := JStr(a.text)];
    var m1 := Put(m0, "image", match a.image case Absent => None case Null => Some(JNull)
                                              case Present(i) => Some(ImageInfoJson(i)));
    JObj(Put(m1, "choices", if a.choices.Some? then Some(JArr(ChoicesJson(a.choices.value))) else None))
  }

  lemma RestrictAll(o: map<string, Json>, keys: set<string>)
    requires o.Keys <= keys
    ensures Restrict(o, keys) == o
  {
  }

  lemma ImageInfoRoundTrip(i: ImageInfo)
    ensures DecodeImageInfo(ImageInfoJson(i)) == Ok(i)
  {
    var o := ImageInfoJson(i).fields;
    RestrictAll(o, ImageInfoKeys);
    assert BoolOf(o, "enabled") == Ok(i.enabled);
    assert NullableStr(o, "url") == Ok(i.url);
    assert OptStr(o, "base64") == Ok(i.base64);
    assert OptStr(o, "mimeType") == Ok(i.mimeType);
    assert OptBool(o, "disabled") == Ok(i.disabled);
    assert OptStr(o, "reason") == Ok(i.reason);
    assert OptStr(o, "prompt") == Ok(i.prompt);
    assert OptStr(o, "storagePath") == Ok(i.storagePath);
  }

  lemma {:induction false} ChoicesRoundTrip(cs: seq<Choice>, items: seq<Json>)
    requires |items| == |cs| && forall i :: 0 <= i < |cs| ==> items[i] == ChoiceJson(cs[i])
    ensures DecodeChoices(items) == Ok(cs)
  {
    if |cs| > 0 {
      ChoicesRoundTrip(cs[1..], items[1..]);
      assert DecodeChoice(items[0]) == Ok(cs[0]);
      assert [cs[0]] + cs[1..] == cs;
    }
  }

  lemma DecodeAgentRoundTrip(a: AgentResponse)
    ensures DecodeAgent(AgentJson(a)) == Ok(a)
  {
    var o := AgentJson(a).fields;
    assert o.Keys <= AgentKeys;
    assert Str(o, "requestId") == Ok(a.requestId);
    assert Str(o, "storyId") == Ok(a.storyId);
    assert Str(o, "title") == Ok(a.title);
    assert Str(o, "text") == Ok(a.text);
    assert o["chapterIndex"] == JNum(a.chapterIndex as real) && IsInteger(a.chapterIndex as real);
    assert o["progress"] == JNum(a.progress);
    if a.image.Present? {
      ImageInfoRoundTrip(a.image.value);
    }
    assert OptImageInfo(o) == Ok(a.image);
    if a.choices.Some? {
      ChoicesRoundTrip(a.choices.value, ChoicesJson(a.choices.value));
    }
    assert OptChoices(o) == Ok(a.choices);
  }

  /** A valid response, written as JSON, parses back to itself. */
  lemma AgentRoundTrip(a: AgentResponse)
    requires ValidAgent(a)
    ensures ParseAgent(AgentJson(a)) == Ok(a)
  {
    DecodeAgentRoundTrip(a);
    CheckAgentIdempotent(a);
  }

  /** The body of an illustrate response. */
  datatype IllustrationResponse = IllustrationResponse(disabled: bool, reason: string, base64: string)

  function IllustrationJson(r: IllustrationResponse): Json {
    JObj(map["disabled" := JBool(r.disabled), "reason" := JStr(r.reason),
             "image" := JObj(map["base64" := JStr(r.base64)])])
  }

  /** `IllustrationResponseSchema.parse(j)`: strict at both levels, with a
      base64 payload of 16 to 200000 characters. */
  function ParseIllustration(j: Json): (r: Result<IllustrationResponse, Thrown>)
    ensures r.Ok? <==>
      j.JObj? && j.fields.Keys <= {"disabled", "reason", "image"}
      && "disabled" in j.fields && j.fields["disabled"].JBool?
      && "reason" in j.fields && j.fields["reason"].JStr?
      && "image" in j.fields && j.fields["image"].JObj? && j.fields["image"].fields.Keys <= {"base64"}
      && "base64" in j.fields["image"].fields && j.fields["image"].fields["base64"].JStr?
      && 16 <= |j.fields["image"].fields["base64"].s| <= 200000
    ensures r.Ok? ==> IllustrationJson(r.value) == j
  {
    if !j.JObj? || !(j.fields.Keys <= {"disabled", "reason", "image"}) then Err(SchemaErr(""))
    else
      var disabled :- BoolOf(j.fields, "disabled");
      var reason :- Str(j.fields, "reason");
      var image := Member(j, "image");
      if image.None? || !image.value.JObj? || !(image.value.fields.Keys <= {"base64"}) then Err(SchemaErr("image"))
      else
        var base64 :- StrIn(image.value.fields, "base64", false, 16, 200000);
        assert image.value == JObj(map["base64" := JStr(base64)]);
        Ok(IllustrationResponse(disabled, reason, base64))
  }

  lemma IllustrationRoundTrip(r: IllustrationResponse)
    requires 16 <= |r.base64| <= 200000
    ensures ParseIllustration(IllustrationJson(r)) == Ok(r)
  {
  }
}
