/** The runtime policy: one admin document (or a static JSON text) that
    switches generation and illustrations on and off and bounds every limit.
    Validation is strict: unknown members, wrong types and out-of-range
    numbers reject the whole document, and the loader then fails closed. */
module Policy {
  import opened Base
  import opened Text
  import opened Errors
  import Env

  const KeyGeneration := "enable_story_generation"
  const KeyIllustrations := "enable_illustrations"
  const KeyAllowlist := "model_allowlist"
  const KeyOutputTokens := "max_output_tokens"
  const KeyTemperature := "temperature"
  const KeyInputChars := "max_input_chars"
  const KeyOutputChars := "max_output_chars"
  const KeyDailyLimit := "daily_story_limit"
  const KeyIpRate := "ip_rate_per_min"
  const KeyUidRate := "uid_rate_per_min"
  const KeyBodyKb := "max_body_kb"
  const KeyTimeout := "request_timeout_ms"

  const PolicyKeys: set<string> := {
    KeyGeneration, KeyIllustrations, KeyAllowlist, KeyOutputTokens, KeyTemperature, KeyInputChars,
    KeyOutputChars, KeyDailyLimit, KeyIpRate, KeyUidRate, KeyBodyKb, KeyTimeout
  }

  const DefaultModel := "gemini-1.5-flash"

  datatype RuntimePolicy = RuntimePolicy(
    enableStoryGeneration: bool,
    enableIllustrations: bool,
    modelAllowlist: seq<string>,
    maxOutputTokens: int,
    temperature: real,
    maxInputChars: int,
    maxOutputChars: int,
    dailyStoryLimit: int,
    ipRatePerMin: int,
    uidRatePerMin: int,
    maxBodyKb: int,
    requestTimeoutMs: int)

  /** Every bound of the schema. */
  predicate ValidPolicy(p: RuntimePolicy) {
    (forall i :: 0 <= i < |p.modelAllowlist| ==> |p.modelAllowlist[i]| >= 1)
    && 64 <= p.maxOutputTokens <= 4096
    && 0.0 <= p.temperature <= 1.2
    && 200 <= p.maxInputChars <= 5000
    && 500 <= p.maxOutputChars <= 30000
    && 1 <= p.dailyStoryLimit <= 500
    && 1 <= p.ipRatePerMin <= 600
    && 1 <= p.uidRatePerMin <= 300
    && 8 <= p.maxBodyKb <= 256
    && 1000 <= p.requestTimeoutMs <= 60000
  }

  /** The policy of an empty document: everything off, default limits. */
  const DefaultPolicy := RuntimePolicy(false, false, [DefaultModel], 1200, 0.7, 1200, 12000, 40, 120, 60, 64, 25000)

  /** `z.boolean().default(def)`. */
  function BoolField(o: map<string, Json>, key: string, def: bool): (r: Result<bool, Thrown>)
    ensures key !in o ==> r == Ok(def)
    ensures key in o ==> (r.Ok? <==> o[key].JBool?)
    ensures key in o && r.Ok? ==> o[key] == JBool(r.value)
  {
    if key !in o then Ok(def)
    else if o[key].JBool? then Ok(o[key].b)
    else Err(SchemaErr(key))
  }

  /** `z.number().int().min(lo).max(hi).default(def)`. */
  function IntField(o: map<string, Json>, key: string, lo: int, hi: int, def: int): (r: Result<int, Thrown>)
    ensures key !in o ==> r == Ok(def)
    ensures key in o ==> (r.Ok? <==> o[key].JNum? && IsInteger(o[key].n) && lo as real <= o[key].n <= hi as real)
    ensures key in o && r.Ok? ==> o[key] == JNum(r.value as real) && lo <= r.value <= hi
  {
    if key !in o then Ok(def)
    else if o[key].JNum? && IsInteger(o[key].n) && lo as real <= o[key].n <= hi as real then Ok(o[key].n.Floor)
    else Err(SchemaErr(key))
  }

  /** `z.number().min(lo).max(hi).default(def)`. */
  function RealField(o: map<string, Json>, key: string, lo: real, hi: real, def: real): (r: Result<real, Thrown>)
    ensures key !in o ==> r == Ok(def)
    ensures key in o ==> (r.Ok? <==> o[key].JNum? && lo <= o[key].n <= hi)
    ensures key in o && r.Ok? ==> o[key] == JNum(r.value)
  {
    if key !in o then Ok(def)
    else if o[key].JNum? && lo <= o[key].n <= hi then Ok(o[key].n)
    else Err(SchemaErr(key))
  }

  /** The items of a JSON array when each is a non-empty string. */
  function NonEmptyStrings(items: seq<Json>): (r: Option<seq<string>>)
    ensures r.Some? <==> forall i :: 0 <= i < |items| ==> items[i].JStr? && |items[i].s| >= 1
    ensures r.Some? ==> |r.value| == |items| && forall i :: 0 <= i < |items| ==> items[i] == JStr(r.value[i])
  {
    if |items| == 0 then Some([])
    else if items[0].JStr? && |items[0].s| >= 1 then
      match NonEmptyStrings(items[1..])
      case None => None
      case Some(rest) => Some([items[0].s] + rest)
    else None
  }

  /** `z.array(z.string().min(1)).default(def)`. */
  function StringsField(o: map<string, Json>, key: string, def: seq<string>): (r: Result<seq<string>, Thrown>)
    ensures key !in o ==> r == Ok(def)
    ensures key in o && r.Ok? ==> o[key] == JArr(seq(|r.value|, i requires 0 <= i < |r.value| => JStr(r.value[i])))
    ensures key in o && r.Ok? ==> forall i :: 0 <= i < |r.value| ==> |r.value[i]| >= 1
  {
    if key !in o then Ok(def)
    else if o[key].JArr? then
      match NonEmptyStrings(o[key].items)
      case None => Err(SchemaErr(key))
      case Some(ss) => Ok(ss)
    else Err(SchemaErr(key))
  }

  /** A present member is a boolean. */
  predicate BoolAccepted(o: map<string, Json>, key: string) {
    key in o ==> o[key].JBool?
  }

  /** A present member is an integer within `lo..hi`. */
  predicate IntAccepted(o: map<string, Json>, key: string, lo: int, hi: int) {
    key in o ==> o[key].JNum? && IsInteger(o[key].n) && lo as real <= o[key].n <= hi as real
  }

  /** A present member is a number within `lo..hi`. */
  predicate RealAccepted(o: map<string, Json>, key: string, lo: real, hi: real) {
    key in o ==> o[key].JNum? && lo <= o[key].n <= hi
  }

  /** A present member is an array of non-empty strings. */
  predicate StringsAccepted(o: map<string, Json>, key: string) {
    key in o ==> o[key].JArr? && forall i :: 0 <= i < |o[key].items| ==> o[key].items[i].JStr? && |o[key].items[i].s| >= 1
  }

  /** The switches and model controls the schema accepts. */
  predicate ControlsAccepted(o: map<string, Json>) {
    && BoolAccepted(o, KeyGeneration)
    && BoolAccepted(o, KeyIllustrations)
    && StringsAccepted(o, KeyAllowlist)
    && IntAccepted(o, KeyOutputTokens, 64, 4096)
    && RealAccepted(o, KeyTemperature, 0.0, 1.2)
  }

  /** The limits the schema accepts. */
  predicate LimitsAccepted(o: map<string, Json>) {
    && IntAccepted(o, KeyInputChars, 200, 5000)
    && IntAccepted(o, KeyOutputChars, 500, 30000)
    && IntAccepted(o, KeyDailyLimit, 1, 500)
    && IntAccepted(o, KeyIpRate, 1, 600)
    && IntAccepted(o, KeyUidRate, 1, 300)
    && IntAccepted(o, KeyBodyKb, 8, 256)
    && IntAccepted(o, KeyTimeout, 1000, 60000)
  }

  /** The documents the schema accepts, member by member. */
  predicate AcceptedDocument(j: Json) {
    j.JObj? && j.fields.Keys <= PolicyKeys && ControlsAccepted(j.fields) && LimitsAccepted(j.fields)
  }

  /** `v` is the boolean member, or `def` when it is absent. */
  predicate BoolFrom(o: map<string, Json>, key: string, def: bool, v: bool) {
    if key in o then o[key] == JBool(v) else v == def
  }

  /** `v` is the numeric member, or `def` when it is absent. */
  predicate IntFrom(o: map<string, Json>, key: string, def: int, v: int) {
    if key in o then o[key] == JNum(v as real) else v == def
  }

  /** `v` is the array of strings, or `def` when it is absent. */
  predicate StringsFrom(o: map<string, Json>, key: string, def: seq<string>, v: seq<string>) {
    if key in o then o[key] == JArr(seq(|v|, i requires 0 <= i < |v| => JStr(v[i]))) else v == def
  }

  datatype Controls = Controls(generation: bool, illustrations: bool, allowlist: seq<string>, outputTokens: int, temperature: real)

  /** The switches and the model controls of a document. */
  function ControlsOf(o: map<string, Json>): (r: Result<Controls, Thrown>)
    ensures r.Ok? <==> ControlsAccepted(o)
    ensures r.Ok? ==> BoolFrom(o, KeyGeneration, false, r.value.generation)
    ensures r.Ok? ==> BoolFrom(o, KeyIllustrations, false, r.value.illustrations)
    ensures r.Ok? ==> StringsFrom(o, KeyAllowlist, [DefaultModel], r.value.allowlist)
    ensures r.Ok? ==> forall i :: 0 <= i < |r.value.allowlist| ==> |r.value.allowlist[i]| >= 1
    ensures r.Ok? ==> IntFrom(o, KeyOutputTokens, 1200, r.value.outputTokens) && 64 <= r.value.outputTokens <= 4096
    ensures r.Ok? ==> (if KeyTemperature in o then o[KeyTemperature] == JNum(r.value.temperature) else r.value.temperature == 0.7)
    ensures r.Ok? ==> 0.0 <= r.value.temperature <= 1.2
  {
    var generation :- BoolField(o, KeyGeneration, false);
    var illustrations :- BoolField(o, KeyIllustrations, false);
    var allowlist :- StringsField(o, KeyAllowlist, [DefaultModel]);
    var outputTokens :- IntField(o, KeyOutputTokens, 64, 4096, 1200);
    var temperature :- RealField(o, KeyTemperature, 0.0, 1.2, 0.7);
    DefaultModelNonEmpty();
    Ok(Controls(generation, illustrations, allowlist, outputTokens, temperature))
  }

  datatype Limits = Limits(inputChars: int, outputChars: int, dailyLimit: int, ipRate: int, uidRate: int, bodyKb: int, timeout: int)

  /** The limits of a document. */
  function LimitsOf(o: map<string, Json>): (r: Result<Limits, Thrown>)
    ensures r.Ok? <==> LimitsAccepted(o)
    ensures r.Ok? ==> IntFrom(o, KeyInputChars, 1200, r.value.inputChars) && 200 <= r.value.inputChars <= 5000
    ensures r.Ok? ==> IntFrom(o, KeyOutputChars, 12000, r.value.outputChars) && 500 <= r.value.outputChars <= 30000
    ensures r.Ok? ==> IntFrom(o, KeyDailyLimit, 40, r.value.dailyLimit) && 1 <= r.value.dailyLimit <= 500
    ensures r.Ok? ==> IntFrom(o, KeyIpRate, 120, r.value.ipRate) && 1 <= r.value.ipRate <= 600
    ensures r.Ok? ==> IntFrom(o, KeyUidRate, 60, r.value.uidRate) && 1 <= r.value.uidRate <= 300
    ensures r.Ok? ==> IntFrom(o, KeyBodyKb, 64, r.value.bodyKb) && 8 <= r.value.bodyKb <= 256
    ensures r.Ok? ==> IntFrom(o, KeyTimeout, 25000, r.value.timeout) && 1000 <= r.value.timeout <= 60000
  {
    var inputChars :- IntField(o, KeyInputChars, 200, 5000, 1200);
    var outputChars :- IntField(o, KeyOutputChars, 500, 30000, 12000);
    var dailyLimit :- IntField(o, KeyDailyLimit, 1, 500, 40);
    var ipRate :- IntField(o, KeyIpRate, 1, 600, 120);
    var uidRate :- IntField(o, KeyUidRate, 1, 300, 60);
    var bodyKb :- IntField(o, KeyBodyKb, 8, 256, 64);
    var timeout :- IntField(o, KeyTimeout, 1000, 60000, 25000);
    Ok(Limits(inputChars, outputChars, dailyLimit, ipRate, uidRate, bodyKb, timeout))
  }

  /** The policy made of its two parts. */
  function Assemble(c: Controls, l: Limits): (p: RuntimePolicy)
    ensures p.enableStoryGeneration == c.generation && p.enableIllustrations == c.illustrations
    ensures p.modelAllowlist == c.allowlist && p.maxOutputTokens == c.outputTokens && p.temperature == c.temperature
    ensures p.maxInputChars == l.inputChars && p.maxOutputChars == l.outputChars && p.dailyStoryLimit == l.dailyLimit
    ensures p.ipRatePerMin == l.ipRate && p.uidRatePerMin == l.uidRate && p.maxBodyKb == l.bodyKb
    ensures p.requestTimeoutMs == l.timeout
  {
    RuntimePolicy(c.generation, c.illustrations, c.allowlist, c.outputTokens, c.temperature,
                  l.inputChars, l.outputChars, l.dailyLimit, l.ipRate, l.uidRate, l.bodyKb, l.timeout)
  }

  /** `RuntimePolicySchema.parse(raw)`: a strict object whose members all
      have their type and range; absent members take their defaults. */
  function ParsePolicy(j: Json): (r: Result<RuntimePolicy, Thrown>)
    ensures r.Ok? <==> AcceptedDocument(j)
    ensures r.Ok? ==> ValidPolicy(r.value)
    ensures r.Ok? ==> BoolFrom(j.fields, KeyGeneration, false, r.value.enableStoryGeneration)
    ensures r.Ok? ==> BoolFrom(j.fields, KeyIllustrations, false, r.value.enableIllustrations)
    ensures r.Ok? ==> StringsFrom(j.fields, KeyAllowlist, [DefaultModel], r.value.modelAllowlist)
    ensures r.Ok? ==> NumbersFrom(j.fields, r.value)
  {
    if !j.JObj? then Err(SchemaErr(""))
    else if !(j.fields.Keys <= PolicyKeys) then Err(SchemaErr("unrecognized_keys"))
    else
      var controls :- ControlsOf(j.fields);
      var limits :- LimitsOf(j.fields);
      Ok(Assemble(controls, limits))
  }

  /** The numeric members of the policy, each the document's value or its
      default. */
  predicate NumbersFrom(o: map<string, Json>, p: RuntimePolicy) {
    && IntFrom(o, KeyOutputTokens, 1200, p.maxOutputTokens)
    && (if KeyTemperature in o then o[KeyTemperature] == JNum(p.temperature) else p.temperature == 0.7)
    && IntFrom(o, KeyInputChars, 1200, p.maxInputChars)
    && IntFrom(o, KeyOutputChars, 12000, p.maxOutputChars)
    && IntFrom(o, KeyDailyLimit, 40, p.dailyStoryLimit)
    && IntFrom(o, KeyIpRate, 120, p.ipRatePerMin)
    && IntFrom(o, KeyUidRate, 60, p.uidRatePerMin)
    && IntFrom(o, KeyBodyKb, 64, p.maxBodyKb)
    && IntFrom(o, KeyTimeout, 25000, p.requestTimeoutMs)
  }

  lemma DefaultModelNonEmpty()
    ensures forall i :: 0 <= i < |[DefaultModel]| ==> |[DefaultModel][i]| >= 1
  {
  }

  /** An empty document is valid and gives the all-off default policy. */
  lemma EmptyDocumentIsDefault()
    ensures ParsePolicy(JObj(map[])) == Ok(DefaultPolicy)
  {
  }

  /** The policy written back as a JSON document. */
  function PolicyToJson(p: RuntimePolicy): Json {
    JObj(map[
      KeyGeneration := JBool(p.enableStoryGeneration),
      KeyIllustrations := JBool(p.enableIllustrations),
      KeyAllowlist := JArr(seq(|p.modelAllowlist|, i requires 0 <= i < |p.modelAllowlist| => JStr(p.modelAllowlist[i]))),
      KeyOutputTokens := JNum(p.maxOutputTokens as real),
      KeyTemperature := JNum(p.temperature),
      KeyInputChars := JNum(p.maxInputChars as real),
      KeyOutputChars := JNum(p.maxOutputChars as real),
      KeyDailyLimit := JNum(p.dailyStoryLimit as real),
      KeyIpRate := JNum(p.ipRatePerMin as real),
      KeyUidRate := JNum(p.uidRatePerMin as real),
      KeyBodyKb := JNum(p.maxBodyKb as real),
      KeyTimeout := JNum(p.requestTimeoutMs as real)])
  }

  lemma {:induction false} StringsRoundTrip(ss: seq<string>, items: seq<Json>)
    requires forall i :: 0 <= i < |ss| ==> |ss[i]| >= 1
    requires |items| == |ss| && forall i :: 0 <= i < |ss| ==> items[i] == JStr(ss[i])
    ensures NonEmptyStrings(items) == Some(ss)
  {
    if |ss| > 0 {
      StringsRoundTrip(ss[1..], items[1..]);
      assert [ss[0]] + ss[1..] == ss;
    }
  }

  /** Every valid policy survives being written as a document and parsed
      back: the schema accepts exactly what it describes. */
  lemma PolicyRoundTrip(p: RuntimePolicy)
    requires ValidPolicy(p)
    ensures ParsePolicy(PolicyToJson(p)) == Ok(p)
  {
    PolicyJsonKeys(p);
    PolicyJsonSwitches(p);
    PolicyJsonModel(p);
    PolicyJsonLimits(p);
    PolicyJsonRates(p);
  }

  lemma PolicyJsonKeys(p: RuntimePolicy)
    ensures PolicyToJson(p).fields.Keys == PolicyKeys
  {
  }

  lemma PolicyJsonSwitches(p: RuntimePolicy)
    ensures BoolField(PolicyToJson(p).fields, KeyGeneration, false) == Ok(p.enableStoryGeneration)
    ensures BoolField(PolicyToJson(p).fields, KeyIllustrations, false) == Ok(p.enableIllustrations)
  {
  }

  lemma PolicyJsonModel(p: RuntimePolicy)
    requires ValidPolicy(p)
    ensures StringsField(PolicyToJson(p).fields, KeyAllowlist, [DefaultModel]) == Ok(p.modelAllowlist)
    ensures IntField(PolicyToJson(p).fields, KeyOutputTokens, 64, 4096, 1200) == Ok(p.maxOutputTokens)
    ensures RealField(PolicyToJson(p).fields, KeyTemperature, 0.0, 1.2, 0.7) == Ok(p.temperature)
  {
    var items := seq(|p.modelAllowlist|, i requires 0 <= i < |p.modelAllowlist| => JStr(p.modelAllowlist[i]));
    assert PolicyToJson(p).fields[KeyAllowlist] == JArr(items);
    StringsRoundTrip(p.modelAllowlist, items);
  }

  lemma PolicyJsonLimits(p: RuntimePolicy)
    requires ValidPolicy(p)
    ensures IntField(PolicyToJson(p).fields, KeyInputChars, 200, 5000, 1200) == Ok(p.maxInputChars)
    ensures IntField(PolicyToJson(p).fields, KeyOutputChars, 500, 30000, 12000) == Ok(p.maxOutputChars)
    ensures IntField(PolicyToJson(p).fields, KeyDailyLimit, 1, 500, 40) == Ok(p.dailyStoryLimit)
  {
  }

  lemma PolicyJsonRates(p: RuntimePolicy)
    requires ValidPolicy(p)
    ensures IntField(PolicyToJson(p).fields, KeyIpRate, 1, 600, 120) == Ok(p.ipRatePerMin)
    ensures IntField(PolicyToJson(p).fields, KeyUidRate, 1, 300, 60) == Ok(p.uidRatePerMin)
    ensures IntField(PolicyToJson(p).fields, KeyBodyKb, 8, 256, 64) == Ok(p.maxBodyKb)
    ensures IntField(PolicyToJson(p).fields, KeyTimeout, 1000, 60000, 25000) == Ok(p.requestTimeoutMs)
  {
  }

  /** Where the policy comes from when it is loaded. */
  datatype DocRead =
    | DocMissing
    | DocFound(data: Json)
    | DocReadFailed

  /** `loadFromFirestore`: a missing document parses as `{}`. */
  function LoadFromFirestore(read: DocRead): (r: Result<RuntimePolicy, Thrown>)
    ensures read.DocMissing? ==> r == Ok(DefaultPolicy)
    ensures read.DocReadFailed? ==> r.Err?
    ensures read.DocFound? ==> r == ParsePolicy(read.data)
  {
    match read
    case DocMissing =>
      EmptyDocumentIsDefault();
      ParsePolicy(JObj(map[]))
    case DocFound(data) => ParsePolicy(data)
    case DocReadFailed => Err(OtherErr("firestore read failed"))
  }

  /** `loadFromStatic`: blank text gives the disabled default policy;
      otherwise the text is parsed as JSON (`jsonParse` is `JSON.parse`,
      `None` when it throws) and validated. */
  function LoadFromStatic(staticJson: string, jsonParse: string -> Option<Json>): (r: Result<RuntimePolicy, Thrown>)
    ensures IsBlank(staticJson) ==> r.Ok? && !r.value.enableStoryGeneration && !r.value.enableIllustrations
    ensures !IsBlank(staticJson) && jsonParse(Trim(staticJson)).None? ==> r.Err?
    ensures !IsBlank(staticJson) && jsonParse(Trim(staticJson)).Some? ==> r == ParsePolicy(jsonParse(Trim(staticJson)).value)
  {
    var s := Trim(staticJson);
    if s == "" then
      DisabledDocumentIsDefault();
      ParsePolicy(JObj(map[KeyGeneration := JBool(false)]))
    else
      match jsonParse(s)
      case None => Err(OtherErr("JSON.parse failed"))
      case Some(j) => ParsePolicy(j)
  }

  /** The document the blank static text stands for, with generation
      switched off explicitly, is the default policy. */
  lemma DisabledDocumentIsDefault()
    ensures ParsePolicy(JObj(map[KeyGeneration := JBool(false)])) == Ok(DefaultPolicy)
  {
    var o := map[KeyGeneration := JBool(false)];
    assert o.Keys <= PolicyKeys;
    assert BoolField(o, KeyGeneration, false) == Ok(false);
    assert KeyIllustrations !in o && KeyAllowlist !in o && KeyOutputTokens !in o && KeyTemperature !in o;
    assert KeyInputChars !in o && KeyOutputChars !in o && KeyDailyLimit !in o && KeyIpRate !in o;
    assert KeyUidRate !in o && KeyBodyKb !in o && KeyTimeout !in o;
  }

  /** Blank static text gives exactly the default policy. */
  lemma BlankStaticIsDefault(staticJson: string, jsonParse: string -> Option<Json>)
    requires IsBlank(staticJson)
    ensures LoadFromStatic(staticJson, jsonParse) == Ok(DefaultPolicy)
  {
    DisabledDocumentIsDefault();
  }

  /** One load from the configured source. */
  function Load(mode: Env.PolicyMode, staticJson: string, read: DocRead, jsonParse: string -> Option<Json>): Result<RuntimePolicy, Thrown> {
    if mode == Env.StaticMode then LoadFromStatic(staticJson, jsonParse) else LoadFromFirestore(read)
  }

  datatype Cached = Cached(value: RuntimePolicy, expiresAt: int)

  /** `createPolicyLoader`: a loader with a time-limited cache of the last
      successful load. */
  class PolicyLoader {
    const ttlMs: int
    const mode: Env.PolicyMode
    const staticJson: string
    var cache: Option<Cached>

    constructor(ttl: Option<int>, mode: Env.PolicyMode, staticJson: string)
      ensures ttlMs == ttl.GetOr(60000) && this.mode == mode && this.staticJson == staticJson
      ensures cache == None
    {
      ttlMs := ttl.GetOr(60000);
      this.mode := mode;
      this.staticJson := staticJson;
      cache := None;
    }

    /** `getPolicy()` at time `now`: an unexpired cache entry answers without
        loading; otherwise one load runs, a success is cached until
        `now + ttlMs`, and a failure clears the cache and yields `None`
        (fail closed). `read` is what the admin document read would return. */
    method GetPolicy(now: int, read: DocRead, jsonParse: string -> Option<Json>) returns (p: Option<RuntimePolicy>)
      modifies this
      ensures old(cache).Some? && old(cache).value.expiresAt > now ==>
        p == Some(old(cache).value.value) && cache == old(cache)
      ensures !(old(cache).Some? && old(cache).value.expiresAt > now) ==>
        var l := Load(mode, staticJson, read, jsonParse);
        (l.Ok? ==> p == Some(l.value) && cache == Some(Cached(l.value, now + ttlMs)))
        && (l.Err? ==> p == None && cache == None)
    {
      if cache.Some? && cache.value.expiresAt > now {
        return Some(cache.value.value);
      }
      var loaded := Load(mode, staticJson, read, jsonParse);
      if loaded.Ok? {
        cache := Some(Cached(loaded.value, now + ttlMs));
        p := Some(loaded.value);
      } else {
        cache := None;
        p := None;
      }
    }
  }

  /** Every policy the loader can hand out satisfies the schema's bounds. */
  lemma LoadedPolicyValid(mode: Env.PolicyMode, staticJson: string, read: DocRead, jsonParse: string -> Option<Json>)
    ensures var l := Load(mode, staticJson, read, jsonParse); l.Ok? ==> ValidPolicy(l.value)
  {
  }
}
