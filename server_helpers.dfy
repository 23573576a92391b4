/** The small helpers of the HTTP server: the UTC day stamp of the daily
    counters, the language default, the stub sent in place of a blocked
    story, the choice of generation model, and the per-instance
    fixed-window rate limiter. */
module ServerHelpers {
  import opened Base
  import opened Text
  import opened Errors
  import opened Schemas
  import Env
  import StoryEngine

  // ---------------------------------------------------------------------
  // Day stamp
  // ---------------------------------------------------------------------

  /** A calendar date in UTC, as `getUTCFullYear`, `getUTCMonth() + 1` and
      `getUTCDate` give it. */
  datatype UtcDate = UtcDate(year: nat, month: nat, day: nat)

  predicate ValidDate(d: UtcDate) { 1 <= d.month <= 12 && 1 <= d.day <= 31 }

  /** `yyyymmdd`: the year, then the zero-padded month and day. */
  function Yyyymmdd(d: UtcDate): (r: string)
    requires ValidDate(d)
    ensures AllDigits(r)
    ensures 1000 <= d.year <= 9999 ==> |r| == 8
  {
    var r := NatToString(d.year) + Pad2(d.month) + Pad2(d.day);
    if 1000 <= d.year <= 9999 then FourDigits(d.year); r else r
  }

  lemma FourDigits(y: nat)
    requires 1000 <= y <= 9999
    ensures |NatToString(y)| == 4
  {
    NatToStringLength(y);
    var a := y / 10;
    var b := a / 10;
    var c := b / 10;
    assert 1 <= c < 10;
    assert DigitCount(b) == 2;
    assert DigitCount(a) == 3;
  }

  lemma DigitCharValue(d: nat)
    requires d < 10
    ensures DigitChar(d) as int - '0' as int == d
  {
  }

  /** The value of two padded digits is the number padded. */
  lemma Pad2Value(n: nat)
    requires n < 100
    ensures Env.DigitsValue(Pad2(n)) == n
  {
    var s := Pad2(n);
    DigitCharValue(n / 10);
    DigitCharValue(n % 10);
    assert s[..1] == [DigitChar(n / 10)];
    assert s[..1][..0] == [];
  }

  /** The stamp of a date with a four-digit year reads back as that date,
      so two days never share a stamp. */
  lemma YyyymmddDecodes(d: UtcDate)
    requires ValidDate(d) && 1000 <= d.year <= 9999
    ensures var r := Yyyymmdd(d);
      && Env.DigitsValue(r[..4]) == d.year
      && Env.DigitsValue(r[4..6]) == d.month
      && Env.DigitsValue(r[6..]) == d.day
  {
    var r := Yyyymmdd(d);
    FourDigits(d.year);
    assert r[..4] == NatToString(d.year);
    assert r[4..6] == Pad2(d.month);
    assert r[6..] == Pad2(d.day);
    Env.DigitsOfNat(d.year);
    Pad2Value(d.month);
    Pad2Value(d.day);
  }

  lemma YyyymmddInjective(d1: UtcDate, d2: UtcDate)
    requires ValidDate(d1) && 1000 <= d1.year <= 9999
    requires ValidDate(d2) && 1000 <= d2.year <= 9999
    requires Yyyymmdd(d1) == Yyyymmdd(d2)
    ensures d1 == d2
  {
    YyyymmddDecodes(d1);
    YyyymmddDecodes(d2);
  }

  // ---------------------------------------------------------------------
  // Language
  // ---------------------------------------------------------------------

  /** `getLangOrDefault`: the trimmed, lower-cased value when it names a
      supported language, English otherwise. */
  function GetLangOrDefault(raw: Option<string>): (r: Lang)
    ensures raw.Some? && ParseLang(ToLower(Trim(raw.value))).Some? ==> LangCode(r) == ToLower(Trim(raw.value))
    ensures raw.None? || ParseLang(ToLower(Trim(raw.value))).None? ==> r == En
  {
    match raw
    case None => En
    case Some(v) => ParseLang(ToLower(Trim(v))).GetOr(En)
  }

  /** A language the request schema already accepted comes back as itself. */
  lemma LangOfCode(l: Lang)
    ensures GetLangOrDefault(Some(LangCode(l))) == l
  {
    var c := LangCode(l);
    TrimOfTrimmed(c);
    assert ToLower(c) == c;
  }

  /** The language code of an optional language, as handed to
      `getLangOrDefault` by the handlers. */
  function LangText(l: Option<Lang>): Option<string> {
    if l.Some? then Some(LangCode(l.value)) else None
  }

  // ---------------------------------------------------------------------
  // Stub response
  // ---------------------------------------------------------------------

  /** The stub's text in each language. The literals here are written as
      short concatenated pieces: the verifier reasons about the characters
      of short literals far more cheaply than about one long literal. */
  function StubText(l: Lang): string {
    match l
    case Ru => "Давай попробуем " + "другую идею. " + "Я могу рассказать " + "добрую историю, " + "если ты изменишь " + "запрос."
    case Hy => "Փորձենք մեկ " + "այլ գաղափար։ " + "Ես կարող եմ " + "պատմել բարի " + "պատմություն, " + "եթե փոխես " + "հարցումը։"
    case En => "Let's try a " + "different idea. " + "I can tell a " + "kind story if " + "you change " + "the request."
  }

  /** The stub's title in each language. */
  function StubTitle(l: Lang): string {
    match l
    case Ru => "Попробуем " + "иначе"
    case Hy => "Փորձենք այլ " + "կերպ"
    case En => "Let's try " + "again"
  }

  lemma StubTextsValid(l: Lang)
    ensures TrimmedIn(StubTitle(l), 1, 140) && TrimmedIn(StubText(l), 1, 12000)
  {
    var title, text := StubTitle(l), StubText(l);
    match l
    case Ru =>
      assert text[0] == 'Д' && text[|text| - 1] == '.';
      assert title[0] == 'П' && title[|title| - 1] == 'е';
    case Hy =>
      assert text[0] == 'Փ' && text[|text| - 1] == '։';
      assert title[0] == 'Փ' && title[|title| - 1] == 'պ';
    case En =>
      assert text[0] == 'L' && text[|text| - 1] == '.';
      assert title[0] == 'L' && title[|title| - 1] == 'n';
  }

  /** The object `safeStubResponse` validates. */
  function StubDraft(requestId: string, storyId: string, lang: Lang, chapterIndex: int): AgentResponse {
    AgentResponse(requestId, storyId, chapterIndex, 1.0, StubTitle(lang), StubText(lang),
                  Present(StoryEngine.ServerImage(false)), Some([]))
  }

  /** `safeStubResponse`: the stub passed through the response schema, which
      refuses it for an index outside 0..99 or an id out of bounds. */
  function SafeStub(requestId: string, storyId: string, lang: Lang, chapterIndex: int): Result<AgentResponse, Thrown> {
    CheckAgent(StubDraft(requestId, storyId, lang, chapterIndex))
  }

  /** The schema's verdict on a stub whose title and text fit. */
  lemma StubChecked(requestId: string, storyId: string, title: string, text: string, chapterIndex: int)
    requires |title| <= 140 && |text| <= 12000
    ensures var d := AgentResponse(requestId, storyId, chapterIndex, 1.0, title, text,
                                   Present(StoryEngine.ServerImage(false)), Some([]));
      var r := CheckAgent(d);
      && (r.Ok? <==> 1 <= |Trim(requestId)| <= 128 && 1 <= |Trim(storyId)| <= 128 && 0 <= chapterIndex <= 99)
      && (r.Ok? ==> r.value == d.(requestId := Trim(requestId), storyId := Trim(storyId), title := Trim(title), text := Trim(text)))
  {
    StubWithinBounds(requestId, storyId, title, text, chapterIndex);
    StubNormalized(requestId, storyId, title, text, chapterIndex);
  }

  lemma StubWithinBounds(requestId: string, storyId: string, title: string, text: string, chapterIndex: int)
    requires |title| <= 140 && |text| <= 12000
    ensures AgentWithinBounds(AgentResponse(requestId, storyId, chapterIndex, 1.0, title, text,
                                            Present(StoryEngine.ServerImage(false)), Some([])))
      <==> 1 <= |Trim(requestId)| <= 128 && 1 <= |Trim(storyId)| <= 128 && 0 <= chapterIndex <= 99
  {
    assert ChoicesWithinBounds([]);
  }

  lemma StubNormalized(requestId: string, storyId: string, title: string, text: string, chapterIndex: int)
    ensures var d := AgentResponse(requestId, storyId, chapterIndex, 1.0, title, text,
                                   Present(StoryEngine.ServerImage(false)), Some([]));
      NormalizeAgent(d) == d.(requestId := Trim(requestId), storyId := Trim(storyId), title := Trim(title), text := Trim(text))
  {
    assert NormalizeChoices([]) == [];
  }

  lemma StubTextsTrimmed(l: Lang)
    ensures |StubTitle(l)| <= 140 && |StubText(l)| <= 12000
    ensures Trim(StubTitle(l)) == StubTitle(l) && Trim(StubText(l)) == StubText(l)
  {
    StubTextsValid(l);
    TrimOfTrimmed(StubTitle(l));
    TrimOfTrimmed(StubText(l));
  }

  /** The stub is accepted exactly when its ids and index are in bounds;
      then it echoes them, has progress 1, no choices and a disabled image
      without a url, and speaks the requested language. */
  lemma SafeStubShape(requestId: string, storyId: string, lang: Lang, chapterIndex: int)
    ensures var r := SafeStub(requestId, storyId, lang, chapterIndex);
      && (r.Ok? <==> 1 <= |Trim(requestId)| <= 128 && 1 <= |Trim(storyId)| <= 128 && 0 <= chapterIndex <= 99)
      && (r.Ok? ==>
            && r.value.requestId == Trim(requestId) && r.value.storyId == Trim(storyId)
            && r.value.chapterIndex == chapterIndex && r.value.progress == 1.0
            && r.value.choices == Some([])
            && r.value.image == Present(StoryEngine.ServerImage(false))
            && r.value.title == StubTitle(lang) && r.value.text == StubText(lang))
      && (r.Err? ==> r.error.SchemaErr?)
  {
    var title, text := StubTitle(lang), StubText(lang);
    var d := StubDraft(requestId, storyId, lang, chapterIndex);
    assert d == AgentResponse(requestId, storyId, chapterIndex, 1.0, title, text,
                              Present(StoryEngine.ServerImage(false)), Some([]));
    StubTextsTrimmed(lang);
    StubChecked(requestId, storyId, title, text, chapterIndex);
  }

  /** The stub's image is switched off and has no url. */
  lemma StubImageDisabled()
    ensures !StoryEngine.ServerImage(false).enabled && StoryEngine.ServerImage(false).url == Null
  {
  }

  // ---------------------------------------------------------------------
  // Model selection
  // ---------------------------------------------------------------------

  /** The configured model when the policy allows it, else the policy's
      first model; with an empty allow-list there is none (`undefined`). */
  function SelectModel(allowlist: seq<string>, configured: string): (r: Option<string>)
    ensures configured in allowlist ==> r == Some(configured)
    ensures configured !in allowlist && |allowlist| > 0 ==> r == Some(allowlist[0])
    ensures r.None? <==> |allowlist| == 0
    ensures r.Some? ==> r.value in allowlist
  {
    if configured in allowlist then Some(configured)
    else if |allowlist| > 0 then Some(allowlist[0])
    else None
  }

  // ---------------------------------------------------------------------
  // Rate limiter
  // ---------------------------------------------------------------------

  /** The length of a rate window, in milliseconds. */
  const WindowMs := 60000

  datatype Bucket = Bucket(resetAt: int, count: int)

  /** One quota check, as a value: whether it passes and the new buckets. */
  function TakeSpec(buckets: map<string, Bucket>, key: string, limit: int, now: int): (r: (bool, map<string, Bucket>))
    ensures key !in buckets || buckets[key].resetAt <= now ==> r == (true, buckets[key := Bucket(now + WindowMs, 1)])
    ensures key in buckets && buckets[key].resetAt > now && buckets[key].count >= limit ==> r == (false, buckets)
    ensures key in buckets && buckets[key].resetAt > now && buckets[key].count < limit ==>
      r == (true, buckets[key := buckets[key].(count := buckets[key].count + 1)])
  {
    if key !in buckets || buckets[key].resetAt <= now then (true, buckets[key := Bucket(now + WindowMs, 1)])
    else if buckets[key].count >= limit then (false, buckets)
    else (true, buckets[key := buckets[key].(count := buckets[key].count + 1)])
  }

  /** Every bucket has counted at least one request and at most `limit`. */
  predicate Bounded(buckets: map<string, Bucket>, limit: int) {
    forall k :: k in buckets ==> 1 <= buckets[k].count <= limit
  }

  /** With a positive limit a check keeps every count within the limit,
      and it touches no other key's bucket. */
  lemma TakeKeepsBound(buckets: map<string, Bucket>, key: string, limit: int, now: int)
    requires limit >= 1 && Bounded(buckets, limit)
    ensures var r := TakeSpec(buckets, key, limit, now);
      && Bounded(r.1, limit)
      && r.1.Keys == buckets.Keys + {key}
      && (forall k :: k in buckets && k != key ==> r.1[k] == buckets[k])
  {
  }

  /** The buckets after `n` checks of the same key at the same instant. */
  function Takes(buckets: map<string, Bucket>, key: string, limit: int, now: int, n: nat): map<string, Bucket> {
    if n == 0 then buckets else TakeSpec(Takes(buckets, key, limit, now, n - 1), key, limit, now).1
  }

  /** In a fresh window the first check always passes and then checks pass
      while fewer than `limit` have been counted: the window admits
      `max(limit, 1)` requests and the count stops there. */
  lemma {:induction false} WindowAdmits(buckets: map<string, Bucket>, key: string, limit: int, now: int, n: nat)
    requires key !in buckets || buckets[key].resetAt <= now
    ensures var cap := if limit < 1 then 1 else limit;
      && (TakeSpec(Takes(buckets, key, limit, now, n), key, limit, now).0 <==> n < cap)
      && (n > 0 ==> key in Takes(buckets, key, limit, now, n)
                    && Takes(buckets, key, limit, now, n)[key] == Bucket(now + WindowMs, if n < cap then n else cap))
  {
    if n > 0 {
      WindowAdmits(buckets, key, limit, now, n - 1);
    }
  }

  /** A per-instance limiter: `takeIpQuota` and `takeUidQuota` are two of
      these over their own maps. */
  class RateLimiter {
    var buckets: map<string, Bucket>

    constructor()
      ensures buckets == map[]
    {
      buckets := map[];
    }

    /** Passes and counts the request, starting a new window when the key's
        has ended, or refuses it and changes nothing. */
    method Take(key: string, limit: int, now: int) returns (ok: bool)
      modifies this
      ensures (ok, buckets) == TakeSpec(old(buckets), key, limit, now)
    {
      if key !in buckets || buckets[key].resetAt <= now {
        buckets := buckets[key := Bucket(now + WindowMs, 1)];
        return true;
      }
      var bucket := buckets[key];
      if bucket.count >= limit {
        return false;
      }
      buckets := buckets[key := bucket.(count := bucket.count + 1)];
      return true;
    }
  }
}
