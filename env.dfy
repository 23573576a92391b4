/** Server configuration read from process environment variables: boolean
    flags with secure defaults, numeric limits, project identifiers and the
    policy mode. */
module Env {
  import opened Base
  import opened Text
  import opened Errors

  const TrueWords: set<string> := {"1", "true", "yes"}
  const FalseWords: set<string> := {"0", "false", "no"}

  /** `boolFromString(v, def)`: a recognised word (after trimming and ASCII
      lower-casing) decides the flag; a missing, blank or unrecognised value
      leaves the default. */
  function BoolFromString(v: Option<string>, def: bool): (r: bool)
    ensures v.Some? && FlagWord(v.value) in TrueWords ==> r
    ensures v.Some? && FlagWord(v.value) in FalseWords ==> !r
    ensures v.None? || (FlagWord(v.value) !in TrueWords && FlagWord(v.value) !in FalseWords) ==> r == def
  {
    if v.None? then def
    else
      var t := Trim(v.value);
      if t == "" then
        assert FlagWord(v.value) == [];
        def
      else
        var s := ToLower(t);
        WordsDisjoint(s);
        if s in TrueWords then true
        else if s in FalseWords then false
        else def
  }

  lemma WordsDisjoint(s: string)
    ensures !(s in TrueWords && s in FalseWords)
  {
  }

  /** The trimmed, lower-cased text of a flag variable. */
  function FlagWord(v: string): (w: string)
    ensures |w| == |Trim(v)|
  {
    ToLower(Trim(v))
  }

  /** Value of a run of decimal digits. */
  function DigitsValue(s: string): nat
    requires AllDigits(s)
  {
    if |s| == 0 then 0
    else DigitsValue(s[..|s| - 1]) * 10 + (s[|s| - 1] as int - '0' as int)
  }

  /** A sign followed by at least one decimal digit. */
  predicate SignedDigits(t: string, sign: char) {
    |t| >= 2 && t[0] == sign && AllDigits(t[1..])
  }

  /** The trimmed texts read as a number here: blank, digits, or a signed
      run of digits. */
  predicate DecimalForm(t: string) {
    t == "" || AllDigits(t) || SignedDigits(t, '-') || SignedDigits(t, '+')
  }

  /** `Number(s)` for the forms a limit is written in: surrounding whitespace,
      an optional sign and decimal digits; the blank string is 0. `None`
      stands for `NaN` and for the numeric forms not modelled here. */
  function ParseNumber(s: string): (r: Option<int>)
    ensures r.Some? <==> DecimalForm(Trim(s))
    ensures Trim(s) == "" ==> r == Some(0)
    ensures AllDigits(Trim(s)) && Trim(s) != "" ==> r == Some(DigitsValue(Trim(s)))
    ensures SignedDigits(Trim(s), '-') ==> r == Some(0 - DigitsValue(Trim(s)[1..]))
    ensures SignedDigits(Trim(s), '+') ==> r == Some(DigitsValue(Trim(s)[1..]))
    ensures r.Some? && r.value < 0 ==> SignedDigits(Trim(s), '-')
  {
    var t := Trim(s);
    if t == "" then Some(0)
    else if AllDigits(t) then Some(DigitsValue(t))
    else if SignedDigits(t, '-') then Some(0 - DigitsValue(t[1..]))
    else if SignedDigits(t, '+') then Some(DigitsValue(t[1..]))
    else None
  }

  lemma {:induction false} DigitsOfNat(n: nat)
    ensures DigitsValue(NatToString(n)) == n
  {
    var s := NatToString(n);
    if n >= 10 {
      DigitsOfNat(n / 10);
      assert s[..|s| - 1] == NatToString(n / 10);
    }
  }

  lemma IntToStringTrimmed(n: int)
    ensures IsTrimmed(IntToString(n))
  {
    var s := IntToString(n);
    var d := NatToString(if n < 0 then -n else n);
    assert !IsSpace(d[|d| - 1]);
    if n < 0 { assert s[|s| - 1] == d[|d| - 1]; }
  }

  /** Writing an integer in decimal and reading it back with `Number` gives
      the integer. */
  lemma ParseNumberOfIntToString(n: int)
    ensures ParseNumber(IntToString(n)) == Some(n)
  {
    var s := IntToString(n);
    IntToStringTrimmed(n);
    TrimOfTrimmed(s);
    assert Trim(s) == s;
    if n >= 0 {
      DigitsOfNat(n);
      assert s == NatToString(n);
    } else {
      var d := NatToString(-n);
      DigitsOfNat(-n);
      assert s == "-" + d;
      assert s[1..] == d;
      assert !AllDigits(s) by { assert !IsDigit(s[0]); }
    }
  }

  const DefaultDatabaseId := "(default)"
  const DefaultLocation := "us-central1"
  const DefaultGeminiModel := "gemini-2.5-flash"
  const DefaultImageModel := "imagen-3.0-generate-001"

  lemma DefaultNamesTrimmed()
    ensures IsTrimmed(DefaultDatabaseId) && IsTrimmed(DefaultImageModel)
  {
  }

  datatype PolicyMode = FirestoreMode | StaticMode

  /** The typed configuration. Numeric fields hold `Number(...)` of their
      variable (`None` = `NaN`). */
  datatype Env = Env(
    port: Option<int>,
    projectId: string,
    firestoreDatabaseId: string,
    authRequired: bool,
    appCheckRequired: bool,
    vertexLocation: string,
    geminiModel: string,
    storageBucket: string,
    vertexImageModel: string,
    imageSignedUrlDays: Option<int>,
    killSwitch: bool,
    maxInputChars: Option<int>,
    maxOutputChars: Option<int>,
    dailyStoryLimit: Option<int>,
    auditStoreText: bool,
    requireIllustrateUserInitiated: bool,
    policyMode: PolicyMode,
    policyStaticJson: string,
    mockEngine: bool,
    storeDisabled: bool)

  function Lookup(vars: map<string, string>, name: string): (r: Option<string>)
    ensures r.Some? <==> name in vars
    ensures r.Some? ==> r.value == vars[name]
  {
    if name in vars then Some(vars[name]) else None
  }

  /** `readEnv(process.env)`. The only validation failure is a missing or
      empty `GOOGLE_CLOUD_PROJECT`. */
  function ReadEnv(vars: map<string, string>): (r: Result<Env, Thrown>)
    ensures r.Err? <==> "GOOGLE_CLOUD_PROJECT" !in vars || vars["GOOGLE_CLOUD_PROJECT"] == ""
    ensures r.Err? ==> r.error == SchemaErr("GOOGLE_CLOUD_PROJECT")
  {
    if "GOOGLE_CLOUD_PROJECT" !in vars || |vars["GOOGLE_CLOUD_PROJECT"]| < 1 then
      Err(SchemaErr("GOOGLE_CLOUD_PROJECT"))
    else
      var projectId := ProjectId(vars);
      Ok(Env(
        port := NumberVar(vars, "PORT", 8080),
        projectId := projectId,
        firestoreDatabaseId := Trim(StringVar(vars, "FIRESTORE_DATABASE_ID", DefaultDatabaseId)),
        authRequired := FlagVar(vars, "AUTH_REQUIRED", true),
        appCheckRequired := FlagVar(vars, "APPCHECK_REQUIRED", true),
        vertexLocation := StringVar(vars, "VERTEX_LOCATION", DefaultLocation),
        geminiModel := StringVar(vars, "GEMINI_MODEL", DefaultGeminiModel),
        storageBucket := Trim(StringVar(vars, "STORAGE_BUCKET", projectId + ".appspot.com")),
        vertexImageModel := Trim(StringVar(vars, "VERTEX_IMAGE_MODEL", DefaultImageModel)),
        imageSignedUrlDays := NumberVar(vars, "IMAGE_SIGNED_URL_DAYS", 30),
        killSwitch := FlagVar(vars, "KILL_SWITCH", false),
        maxInputChars := NumberVar(vars, "MAX_INPUT_CHARS", 1200),
        maxOutputChars := NumberVar(vars, "MAX_OUTPUT_CHARS", 12000),
        dailyStoryLimit := NumberVar(vars, "DAILY_STORY_LIMIT", 40),
        auditStoreText := FlagVar(vars, "AUDIT_STORE_TEXT", false),
        requireIllustrateUserInitiated := FlagVar(vars, "REQUIRE_ILLUSTRATE_USER_INITIATED", false),
        policyMode := ModeOf(StringVar(vars, "POLICY_MODE", "firestore")),
        policyStaticJson := StringVar(vars, "POLICY_STATIC_JSON", ""),
        mockEngine := FlagVar(vars, "MOCK_ENGINE", false),
        storeDisabled := FlagVar(vars, "STORE_DISABLED", false)))
  }

  /** `vars[name] ?? def`. */
  function StringVar(vars: map<string, string>, name: string, def: string): string {
    if name in vars then vars[name] else def
  }

  function FlagVar(vars: map<string, string>, name: string, def: bool): bool {
    BoolFromString(Lookup(vars, name), def)
  }

  /** `Number(vars[name] ?? String(def))`. */
  function NumberVar(vars: map<string, string>, name: string, def: int): Option<int> {
    ParseNumber(StringVar(vars, name, IntToString(def)))
  }

  /** Static mode only for the word "static"; anything else is Firestore. */
  function ModeOf(v: string): PolicyMode {
    if FlagWord(v) == "static" then StaticMode else FirestoreMode
  }

  lemma DefaultModeIsFirestore()
    ensures ModeOf("firestore") == FirestoreMode
  {
    TrimOfTrimmed("firestore");
    assert |FlagWord("firestore")| == 9;
  }

  function ProjectId(vars: map<string, string>): string
    requires "GOOGLE_CLOUD_PROJECT" in vars
  {
    Trim(StringVar(vars, "FIREBASE_PROJECT_ID", vars["GOOGLE_CLOUD_PROJECT"]))
  }

  /** The project id is the trimmed Firebase project id when one is set
      (even to the empty string), otherwise the trimmed Cloud project. */
  lemma ProjectIdSource(vars: map<string, string>)
    requires ReadEnv(vars).Ok?
    ensures var e := ReadEnv(vars).value;
      IsTrimmed(e.projectId)
      && e.projectId == Trim(if "FIREBASE_PROJECT_ID" in vars then vars["FIREBASE_PROJECT_ID"] else vars["GOOGLE_CLOUD_PROJECT"])
  {
    assert ReadEnv(vars).value.projectId == ProjectId(vars);
  }

  /** Without `STORAGE_BUCKET` the bucket is `<projectId>.appspot.com`. */
  lemma DefaultBucket(vars: map<string, string>)
    requires ReadEnv(vars).Ok? && "STORAGE_BUCKET" !in vars
    ensures ReadEnv(vars).value.storageBucket == ReadEnv(vars).value.projectId + ".appspot.com"
  {
    var e := ReadEnv(vars).value;
    assert e.projectId == ProjectId(vars);
    assert e.storageBucket == Trim(StringVar(vars, "STORAGE_BUCKET", e.projectId + ".appspot.com"));
    BucketDefaultTrimmed(e.projectId);
  }

  /** Authentication and App Check are on, and the kill switch, the mock
      engine and the disabled store are off, unless the variable holds an
      explicit word saying otherwise. */
  lemma SecureDefaults(vars: map<string, string>)
    requires ReadEnv(vars).Ok?
    ensures var e := ReadEnv(vars).value;
      (!e.authRequired ==> "AUTH_REQUIRED" in vars && FlagWord(vars["AUTH_REQUIRED"]) in FalseWords)
      && (!e.appCheckRequired ==> "APPCHECK_REQUIRED" in vars && FlagWord(vars["APPCHECK_REQUIRED"]) in FalseWords)
      && (e.killSwitch ==> "KILL_SWITCH" in vars && FlagWord(vars["KILL_SWITCH"]) in TrueWords)
      && (e.mockEngine ==> "MOCK_ENGINE" in vars && FlagWord(vars["MOCK_ENGINE"]) in TrueWords)
      && (e.storeDisabled ==> "STORE_DISABLED" in vars && FlagWord(vars["STORE_DISABLED"]) in TrueWords)
  {
    var e := ReadEnv(vars).value;
    FlagOverride(vars, "AUTH_REQUIRED", true);
    FlagOverride(vars, "APPCHECK_REQUIRED", true);
    FlagOverride(vars, "KILL_SWITCH", false);
    FlagOverride(vars, "MOCK_ENGINE", false);
    FlagOverride(vars, "STORE_DISABLED", false);
    assert e.authRequired == FlagVar(vars, "AUTH_REQUIRED", true);
    assert e.appCheckRequired == FlagVar(vars, "APPCHECK_REQUIRED", true);
    assert e.killSwitch == FlagVar(vars, "KILL_SWITCH", false);
    assert e.mockEngine == FlagVar(vars, "MOCK_ENGINE", false);
    assert e.storeDisabled == FlagVar(vars, "STORE_DISABLED", false);
  }

  /** A flag differs from its default only when its variable holds a word
      of the opposite kind. */
  lemma FlagOverride(vars: map<string, string>, name: string, def: bool)
    ensures FlagVar(vars, name, def) != def ==>
      name in vars && FlagWord(vars[name]) in (if def then FalseWords else TrueWords)
  {
  }

  /** Static policy mode is chosen exactly by the word "static". */
  lemma PolicyModeSelection(vars: map<string, string>)
    requires ReadEnv(vars).Ok?
    ensures ReadEnv(vars).value.policyMode == StaticMode <==>
      "POLICY_MODE" in vars && FlagWord(vars["POLICY_MODE"]) == "static"
  {
    assert ReadEnv(vars).value.policyMode == ModeOf(StringVar(vars, "POLICY_MODE", "firestore"));
    DefaultModeIsFirestore();
  }

  /** The default bucket name built from a trimmed project id is already
      trimmed, so trimming it again changes nothing. */
  lemma BucketDefaultTrimmed(projectId: string)
    requires IsTrimmed(projectId)
    ensures Trim(projectId + ".appspot.com") == projectId + ".appspot.com"
  {
    var b := projectId + ".appspot.com";
    assert b[|b| - 1] == 'm';
    if |projectId| > 0 { assert b[0] == projectId[0]; } else { assert b[0] == '.'; }
    TrimOfTrimmed(b);
  }

  /** Unset flags take their defaults: authentication and App Check are
      required, nothing is switched off or mocked, and the policy lives in
      Firestore. */
  lemma DefaultFlags(vars: map<string, string>)
    requires ReadEnv(vars).Ok?
    requires "AUTH_REQUIRED" !in vars && "APPCHECK_REQUIRED" !in vars && "KILL_SWITCH" !in vars
    requires "MOCK_ENGINE" !in vars && "STORE_DISABLED" !in vars && "AUDIT_STORE_TEXT" !in vars
    requires "REQUIRE_ILLUSTRATE_USER_INITIATED" !in vars && "POLICY_MODE" !in vars
    ensures var r := ReadEnv(vars);
      r.value.authRequired && r.value.appCheckRequired && !r.value.killSwitch
      && !r.value.mockEngine && !r.value.storeDisabled && !r.value.auditStoreText
      && !r.value.requireIllustrateUserInitiated && r.value.policyMode == FirestoreMode
  {
    var e := ReadEnv(vars).value;
    assert e.authRequired == FlagVar(vars, "AUTH_REQUIRED", true);
    assert e.appCheckRequired == FlagVar(vars, "APPCHECK_REQUIRED", true);
    assert e.killSwitch == FlagVar(vars, "KILL_SWITCH", false);
    assert e.mockEngine == FlagVar(vars, "MOCK_ENGINE", false);
    assert e.storeDisabled == FlagVar(vars, "STORE_DISABLED", false);
    assert e.auditStoreText == FlagVar(vars, "AUDIT_STORE_TEXT", false);
    assert e.requireIllustrateUserInitiated == FlagVar(vars, "REQUIRE_ILLUSTRATE_USER_INITIATED", false);
    assert e.policyMode == ModeOf(StringVar(vars, "POLICY_MODE", "firestore"));
    DefaultModeIsFirestore();
  }

  /** Unset numbers take their defaults: port 8080, 1200 input and 12000
      output characters, 40 stories a day, signed image links for 30 days. */
  lemma DefaultNumbers(vars: map<string, string>)
    requires ReadEnv(vars).Ok?
    requires "PORT" !in vars && "MAX_INPUT_CHARS" !in vars && "MAX_OUTPUT_CHARS" !in vars
    requires "DAILY_STORY_LIMIT" !in vars && "IMAGE_SIGNED_URL_DAYS" !in vars
    ensures var r := ReadEnv(vars);
      r.value.port == Some(8080) && r.value.maxInputChars == Some(1200)
      && r.value.maxOutputChars == Some(12000) && r.value.dailyStoryLimit == Some(40)
      && r.value.imageSignedUrlDays == Some(30)
  {
    var e := ReadEnv(vars).value;
    assert e.port == NumberVar(vars, "PORT", 8080);
    assert e.maxInputChars == NumberVar(vars, "MAX_INPUT_CHARS", 1200);
    assert e.maxOutputChars == NumberVar(vars, "MAX_OUTPUT_CHARS", 12000);
    assert e.dailyStoryLimit == NumberVar(vars, "DAILY_STORY_LIMIT", 40);
    assert e.imageSignedUrlDays == NumberVar(vars, "IMAGE_SIGNED_URL_DAYS", 30);
    ParseNumberOfIntToString(8080);
    ParseNumberOfIntToString(1200);
    ParseNumberOfIntToString(12000);
    ParseNumberOfIntToString(40);
    ParseNumberOfIntToString(30);
  }

  /** Unset names take their built-in values. */
  lemma DefaultNames(vars: map<string, string>)
    requires ReadEnv(vars).Ok?
    requires "FIRESTORE_DATABASE_ID" !in vars && "VERTEX_LOCATION" !in vars && "GEMINI_MODEL" !in vars
    requires "VERTEX_IMAGE_MODEL" !in vars && "POLICY_STATIC_JSON" !in vars
    ensures var r := ReadEnv(vars);
      r.value.firestoreDatabaseId == DefaultDatabaseId && r.value.vertexLocation == DefaultLocation
      && r.value.geminiModel == DefaultGeminiModel && r.value.vertexImageModel == DefaultImageModel
      && r.value.policyStaticJson == ""
  {
    var e := ReadEnv(vars).value;
    assert e.firestoreDatabaseId == Trim(StringVar(vars, "FIRESTORE_DATABASE_ID", DefaultDatabaseId));
    assert e.vertexImageModel == Trim(StringVar(vars, "VERTEX_IMAGE_MODEL", DefaultImageModel));
    assert e.vertexLocation == StringVar(vars, "VERTEX_LOCATION", DefaultLocation);
    assert e.geminiModel == StringVar(vars, "GEMINI_MODEL", DefaultGeminiModel);
    assert e.policyStaticJson == StringVar(vars, "POLICY_STATIC_JSON", "");
    DefaultNamesTrimmed();
    TrimOfTrimmed(DefaultDatabaseId);
    TrimOfTrimmed(DefaultImageModel);
  }
}
