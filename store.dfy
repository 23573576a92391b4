/** The Firestore documents the server keeps, as an in-memory store:
    per-user daily usage counters (`usage_daily`), story sessions
    (`stories`) with their embedded chapter list, the `chapters`
    sub-collection of each story, and the audit trail (`story_audit`).
    Server timestamps are the parameter `now`; the outcome of queries the
    database may refuse is a parameter too. */
module Store {
  import opened Base
  import opened Text
  import opened Errors
  import Schemas

  // ---------------------------------------------------------------------
  // Documents
  // ---------------------------------------------------------------------

  /** A chapter as the server stores it in a story and hands it out. */
  datatype ChapterRecord = ChapterRecord(
    chapterIndex: int, title: string, text: string, progress: real, choices: seq<Schemas.Choice>,
    imageUrl: Option<string>, imageStoragePath: Option<string>, imagePrompt: Option<string>)

  /** A document of `stories`. `None` stands for a member that is null or
      missing. */
  datatype StoryDoc = StoryDoc(
    storyId: string, uid: string, title: string,
    lang: Option<string>, ageGroup: Option<string>, storyLength: Option<string>, creativityLevel: Option<real>,
    hero: Option<string>, location: Option<string>, style: Option<string>, idea: Option<string>,
    policyVersion: Option<string>,
    chapters: seq<ChapterRecord>, latestChapterIndex: int, createdAt: int, updatedAt: int)

  /** What `upsertStorySession` is given. */
  datatype Session = Session(
    storyId: string, uid: string, title: string,
    lang: Option<string>, ageGroup: Option<string>, storyLength: Option<string>, creativityLevel: Option<real>,
    hero: Option<string>, location: Option<string>, style: Option<string>, idea: Option<string>,
    policyVersion: Option<string>, chapters: seq<ChapterRecord>)

  /** A document of a story's `chapters` sub-collection. Every member may
      be missing: `updateChapterIllustration` can create a document with
      only its image members. */
  datatype ChapterDoc = ChapterDoc(
    storyId: Option<string>, chapterIndex: Option<int>, title: Option<string>, text: Option<string>,
    progress: Option<real>, choices: Option<seq<Schemas.Choice>>,
    imageUrl: Option<string>, imageStoragePath: Option<string>, imagePrompt: Option<string>,
    createdAt: Option<int>, imageGeneratedAt: Option<int>)

  const EmptyChapterDoc := ChapterDoc(None, None, None, None, None, None, None, None, None, None, None)

  /** What `writeAudit` is given. */
  datatype AuditRecord = AuditRecord(
    requestId: string, uid: string, route: string, blocked: bool, blockReason: Option<string>, storyId: Option<string>)

  datatype AuditDoc = AuditDoc(record: AuditRecord, createdAt: int)

  /** A sub-collection document read back as a chapter, with the source's
      defaults for missing members. */
  function ToRecord(d: ChapterDoc, defaultIndex: int): (c: ChapterRecord)
    ensures c.chapterIndex == d.chapterIndex.GetOr(defaultIndex)
    ensures d.title.None? ==> c.title == ""
    ensures d.choices.None? ==> c.choices == []
  {
    ChapterRecord(d.chapterIndex.GetOr(defaultIndex), d.title.GetOr(""), d.text.GetOr(""), d.progress.GetOr(0.0),
                  d.choices.GetOr([]), d.imageUrl, d.imageStoragePath, d.imagePrompt)
  }

  /** Sub-collection documents live under the id `String(chapterIndex)`;
      a document that has a `chapterIndex` member has its own id's index. */
  predicate DocsKeyed(docs: map<(string, int), ChapterDoc>) {
    forall p :: p in docs && docs[p].chapterIndex.Some? ==> docs[p].chapterIndex.value == p.1
  }

  // ---------------------------------------------------------------------
  // Daily usage
  // ---------------------------------------------------------------------

  /** The id of a usage document: `${uid}_${yyyymmdd}`. */
  function UsageKey(uid: string, day: string): string { uid + "_" + day }

  /** With eight-character days, distinct users or days never share a
      counter. */
  lemma UsageKeyInjective(uid1: string, day1: string, uid2: string, day2: string)
    requires |day1| == 8 && |day2| == 8
    requires UsageKey(uid1, day1) == UsageKey(uid2, day2)
    ensures uid1 == uid2 && day1 == day2
  {
    var k := UsageKey(uid1, day1);
    assert day1 == k[|k| - 8..] == day2;
    assert uid1 == k[..|k| - 9] == uid2;
  }

  function Count(usage: map<string, int>, key: string): int {
    if key in usage then usage[key] else 0
  }

  /** The message of the error thrown when the day's limit is reached. */
  const DailyLimitCode := "DAILY_LIMIT_EXCEEDED"

  const DailyLimitExceeded := OtherErr(DailyLimitCode)

  /** One `enforceDailyLimit` transaction: the new counters and whether
      it passed. */
  function DailyStep(usage: map<string, int>, key: string, limit: int): (r: (bool, map<string, int>))
    ensures r.0 <==> Count(usage, key) < limit
    ensures r.0 ==> r.1 == usage[key := Count(usage, key) + 1]
    ensures !r.0 ==> r.1 == usage
  {
    var current := Count(usage, key);
    if current >= limit then (false, usage) else (true, usage[key := current + 1])
  }

  /** The counters after `n` transactions on the same key. */
  function After(usage: map<string, int>, key: string, limit: int, n: nat): map<string, int> {
    if n == 0 then usage else DailyStep(After(usage, key, limit, n - 1), key, limit).1
  }

  /** From an unused day, the first `limit` requests pass and every later
      one is refused; the counter never goes past `limit`, and no other
      counter moves. */
  lemma {:induction false} DailyLimitExact(usage: map<string, int>, key: string, limit: int, n: nat)
    requires key !in usage
    ensures Count(After(usage, key, limit, n), key) == (if n < limit then n else if limit < 0 then 0 else limit)
    ensures DailyStep(After(usage, key, limit, n), key, limit).0 <==> n < limit
    ensures forall k :: k != key ==> (k in After(usage, key, limit, n) <==> k in usage)
    ensures forall k :: k != key && k in usage ==> After(usage, key, limit, n)[k] == usage[k]
  {
    if n > 0 {
      DailyLimitExact(usage, key, limit, n - 1);
    }
  }

  // ---------------------------------------------------------------------
  // Listing chapters
  // ---------------------------------------------------------------------

  /** `Math.max(1, Math.min(10, limit ?? 4))`. */
  function ClampLimit(requested: Option<int>): (n: nat)
    ensures 1 <= n <= 10
    ensures requested.None? ==> n == 4
    ensures requested.Some? && 1 <= requested.value <= 10 ==> n == requested.value
  {
    var l := requested.GetOr(4);
    if l < 1 then 1 else if l > 10 then 10 else l
  }

  predicate IsMax(s: set<int>, m: int) { m in s && forall x :: x in s ==> x <= m }

  lemma EmptyIfNoMember(s: set<int>)
    requires forall y :: y !in s
    ensures s == {}
  {
    var e: set<int> := {};
    assert forall y :: y in s <==> y in e;
  }

  lemma Member(s: set<int>) returns (x: int)
    requires s != {}
    ensures x in s
  {
    if forall y :: y !in s {
      EmptyIfNoMember(s);
      assert false;
    }
    x :| x in s;
  }

  lemma {:induction false} MaxExists(s: set<int>)
    requires s != {}
    ensures exists m :: IsMax(s, m)
    decreases |s|
  {
    var x := Member(s);
    if s != {x} {
      MaxExists(s - {x});
      var m :| IsMax(s - {x}, m);
      assert forall y :: y in s ==> y == x || y in s - {x};
      if x <= m { assert IsMax(s, m); } else { assert IsMax(s, x); }
    } else {
      assert IsMax(s, x);
    }
  }

  function Max(s: set<int>): (m: int)
    requires s != {}
    ensures IsMax(s, m)
  {
    MaxExists(s);
    assert forall a, b :: IsMax(s, a) && IsMax(s, b) ==> a == b by {
      forall a, b | IsMax(s, a) && IsMax(s, b) ensures a == b { assert a <= b && b <= a; }
    }
    var m :| IsMax(s, m);
    m
  }

  /** `orderBy(desc).limit(n)`: the `n` greatest members, greatest first. */
  function TopDesc(s: set<int>, n: nat): (r: seq<int>)
    ensures |r| == (if n < |s| then n else |s|)
    ensures forall i :: 0 <= i < |r| ==> r[i] in s
    ensures forall i, j :: 0 <= i < j < |r| ==> r[i] > r[j]
    ensures forall x, i :: x in s && x !in r && 0 <= i < |r| ==> x < r[i]
    decreases n
  {
    if n == 0 || s == {} then []
    else
      var m := Max(s);
      var rest := TopDesc(s - {m}, n - 1);
      assert forall i :: 0 <= i < |rest| ==> rest[i] in s - {m};
      [m] + rest
  }

  /** The sub-collection documents of `storyId` that an `orderBy` on
      `chapterIndex` sees: those that have the member. */
  function Indexed(docs: map<(string, int), ChapterDoc>, storyId: string): set<int> {
    set p | p in docs && p.0 == storyId && docs[p].chapterIndex.Some? :: p.1
  }

  function Reverse<T>(s: seq<T>): (r: seq<T>)
    ensures |r| == |s| && forall i :: 0 <= i < |s| ==> r[i] == s[|s| - 1 - i]
  {
    if |s| == 0 then [] else Reverse(s[1..]) + [s[0]]
  }

  /** The last `limit` chapters embedded in the story document (none for a
      missing story): `chapters.slice(-limit)`. */
  function LastChapters(stories: map<string, StoryDoc>, storyId: string, limit: nat): (r: seq<ChapterRecord>)
    ensures storyId !in stories ==> r == []
    ensures storyId in stories ==>
      var cs := stories[storyId].chapters;
      |r| == (if |cs| < limit then |cs| else limit) && r == cs[|cs| - |r|..]
  {
    if storyId !in stories then []
    else
      var cs := stories[storyId].chapters;
      if |cs| <= limit then cs else cs[|cs| - limit..]
  }

  /** The records the query returns, in its (descending) order. */
  function QueryRecords(docs: map<(string, int), ChapterDoc>, storyId: string, idx: seq<int>): (r: seq<ChapterRecord>)
    requires forall i :: 0 <= i < |idx| ==> (storyId, idx[i]) in docs
    ensures |r| == |idx| && forall i :: 0 <= i < |idx| ==> r[i] == ToRecord(docs[(storyId, idx[i])], 0)
  {
    seq(|idx|, i requires 0 <= i < |idx| => ToRecord(docs[(storyId, idx[i])], 0))
  }

  /** One more queried document adds its record at the end. */
  lemma QueryRecordsStep(docs: map<(string, int), ChapterDoc>, storyId: string, idx: seq<int>, i: nat)
    requires i < |idx| && forall k :: 0 <= k < |idx| ==> (storyId, idx[k]) in docs
    ensures QueryRecords(docs, storyId, idx[..i + 1])
      == QueryRecords(docs, storyId, idx[..i]) + [ToRecord(docs[(storyId, idx[i])], 0)]
  {
    var a := QueryRecords(docs, storyId, idx[..i + 1]);
    var b := QueryRecords(docs, storyId, idx[..i]) + [ToRecord(docs[(storyId, idx[i])], 0)];
    assert |a| == |b|;
    forall k | 0 <= k < |a| ensures a[k] == b[k] {
      assert idx[..i + 1][k] == idx[k];
      if k < i { assert idx[..i][k] == idx[k]; }
    }
  }

  lemma IndexedInDocs(docs: map<(string, int), ChapterDoc>, storyId: string, idx: seq<int>)
    requires forall i :: 0 <= i < |idx| ==> idx[i] in Indexed(docs, storyId)
    ensures forall i :: 0 <= i < |idx| ==> (storyId, idx[i]) in docs && docs[(storyId, idx[i])].chapterIndex.Some?
  {
    forall i | 0 <= i < |idx| ensures (storyId, idx[i]) in docs && docs[(storyId, idx[i])].chapterIndex.Some? {
      assert idx[i] in Indexed(docs, storyId);
      var p :| p in docs && p.0 == storyId && docs[p].chapterIndex.Some? && p.1 == idx[i];
      assert p == (storyId, idx[i]);
    }
  }

  /** `listStoryChapters`, as a value: the sub-collection query sorted
      ascending, or the embedded chapters when the query fails or finds
      nothing. */
  function ListSpec(stories: map<string, StoryDoc>, docs: map<(string, int), ChapterDoc>,
                    storyId: string, requested: Option<int>, queryFails: bool): seq<ChapterRecord>
  {
    var limit := ClampLimit(requested);
    if queryFails || Indexed(docs, storyId) == {} then LastChapters(stories, storyId, limit)
    else
      var idx := TopDesc(Indexed(docs, storyId), limit);
      IndexedInDocs(docs, storyId, idx);
      Reverse(QueryRecords(docs, storyId, idx))
  }

  /** From the sub-collection: at most `limit` chapters, in strictly
      ascending chapter order, and no chapter left out that is later than
      one returned. */
  lemma ListFromSubcollection(stories: map<string, StoryDoc>, docs: map<(string, int), ChapterDoc>,
                              storyId: string, requested: Option<int>)
    requires DocsKeyed(docs) && Indexed(docs, storyId) != {}
    ensures var r := ListSpec(stories, docs, storyId, requested, false);
      && 1 <= |r| <= ClampLimit(requested)
      && (forall i, j :: 0 <= i < j < |r| ==> r[i].chapterIndex < r[j].chapterIndex)
      && (forall i :: 0 <= i < |r| ==> r[i].chapterIndex in Indexed(docs, storyId))
      && (forall x, i :: x in Indexed(docs, storyId) && 0 <= i < |r| && x > r[i].chapterIndex ==>
            exists j :: 0 <= j < |r| && r[j].chapterIndex == x)
  {
    var idx := TopDesc(Indexed(docs, storyId), ClampLimit(requested));
    IndexedInDocs(docs, storyId, idx);
    QueriedIndexes(docs, storyId, idx);
    AscendingTop(Indexed(docs, storyId), ClampLimit(requested), ListSpec(stories, docs, storyId, requested, false));
  }

  /** The reversed query results carry the queried indexes, last first. */
  lemma QueriedIndexes(docs: map<(string, int), ChapterDoc>, storyId: string, idx: seq<int>)
    requires DocsKeyed(docs)
    requires forall i :: 0 <= i < |idx| ==> (storyId, idx[i]) in docs && docs[(storyId, idx[i])].chapterIndex.Some?
    ensures var r := Reverse(QueryRecords(docs, storyId, idx));
      |r| == |idx| && forall i :: 0 <= i < |r| ==> r[i].chapterIndex == idx[|idx| - 1 - i]
  {
  }

  /** The greatest `n` members of `s`, reversed: ascending, and nothing
      in `s` above the smallest of them is missing. */
  lemma AscendingTop(s: set<int>, n: nat, r: seq<ChapterRecord>)
    requires s != {} && n >= 1
    requires var idx := TopDesc(s, n);
      |r| == |idx| && forall i :: 0 <= i < |r| ==> r[i].chapterIndex == idx[|idx| - 1 - i]
    ensures && 1 <= |r| <= n
      && (forall i, j :: 0 <= i < j < |r| ==> r[i].chapterIndex < r[j].chapterIndex)
      && (forall i :: 0 <= i < |r| ==> r[i].chapterIndex in s)
      && (forall x, i :: x in s && 0 <= i < |r| && x > r[i].chapterIndex ==>
            exists j :: 0 <= j < |r| && r[j].chapterIndex == x)
  {
    var idx := TopDesc(s, n);
    forall x, i | x in s && 0 <= i < |r| && x > r[i].chapterIndex
      ensures exists j :: 0 <= j < |r| && r[j].chapterIndex == x
    {
      assert r[i].chapterIndex == idx[|r| - 1 - i];
      assert x in idx;
      var k :| 0 <= k < |idx| && idx[k] == x;
      assert r[|r| - 1 - k].chapterIndex == x;
    }
  }

  /** The fallback returns the last `min(limit, n)` embedded chapters, in
      stored order. */
  lemma ListFallback(stories: map<string, StoryDoc>, docs: map<(string, int), ChapterDoc>,
                     storyId: string, requested: Option<int>, queryFails: bool)
    requires queryFails || Indexed(docs, storyId) == {}
    ensures var r := ListSpec(stories, docs, storyId, requested, queryFails);
      var cs := if storyId in stories then stories[storyId].chapters else [];
      var limit := ClampLimit(requested);
      && |r| == (if |cs| < limit then |cs| else limit)
      && r == cs[|cs| - |r|..]
  {
  }

  // ---------------------------------------------------------------------
  // Looking up a chapter
  // ---------------------------------------------------------------------

  /** Position of the first embedded chapter with the index, from `i` on:
      `chapters.find(...)`. */
  function FindChapter(cs: seq<ChapterRecord>, chapterIndex: int, i: nat): (r: Option<nat>)
    requires i <= |cs|
    ensures r.Some? ==> i <= r.value < |cs| && cs[r.value].chapterIndex == chapterIndex
    ensures r.Some? ==> forall k :: i <= k < r.value ==> cs[k].chapterIndex != chapterIndex
    ensures r.None? ==> forall k :: i <= k < |cs| ==> cs[k].chapterIndex != chapterIndex
    decreases |cs| - i
  {
    if i == |cs| then None
    else if cs[i].chapterIndex == chapterIndex then Some(i)
    else FindChapter(cs, chapterIndex, i + 1)
  }

  /** `getStoryChapter`, as a value: the sub-collection document when the
      lookup works and finds it, else the first embedded chapter with the
      index. */
  function ChapterSpec(stories: map<string, StoryDoc>, docs: map<(string, int), ChapterDoc>,
                       storyId: string, chapterIndex: int, lookupFails: bool): (r: Option<ChapterRecord>)
    ensures !lookupFails && (storyId, chapterIndex) in docs ==>
      r == Some(ToRecord(docs[(storyId, chapterIndex)], chapterIndex))
    ensures (lookupFails || (storyId, chapterIndex) !in docs) && storyId !in stories ==> r.None?
    ensures (lookupFails || (storyId, chapterIndex) !in docs) && storyId in stories ==>
      var cs := stories[storyId].chapters;
      && (r.None? <==> forall k :: 0 <= k < |cs| ==> cs[k].chapterIndex != chapterIndex)
      && (r.Some? ==> r.value.chapterIndex == chapterIndex
                      && (exists k :: 0 <= k < |cs| && r.value == cs[k]
                            && forall m :: 0 <= m < k ==> cs[m].chapterIndex != chapterIndex))
  {
    if !lookupFails && (storyId, chapterIndex) in docs then Some(ToRecord(docs[(storyId, chapterIndex)], chapterIndex))
    else if storyId !in stories then None
    else
      var cs := stories[storyId].chapters;
      match FindChapter(cs, chapterIndex, 0)
      case None => None
      case Some(k) => Some(cs[k].(chapterIndex := chapterIndex))
  }

  // ---------------------------------------------------------------------
  // Writing
  // ---------------------------------------------------------------------

  /** The index recorded as the latest: that of the last chapter, 0 for none. */
  function LatestIndex(chapters: seq<ChapterRecord>): int {
    if |chapters| > 0 then chapters[|chapters| - 1].chapterIndex else 0
  }

  /** The document `upsertStorySession` writes. Every member is set, so the
      merge replaces the whole document (including `createdAt`). */
  function SessionDoc(s: Session, now: int): (d: StoryDoc)
    ensures d.chapters == s.chapters && d.latestChapterIndex == LatestIndex(s.chapters)
    ensures d.storyId == s.storyId && d.uid == s.uid && d.title == s.title
  {
    StoryDoc(s.storyId, s.uid, s.title, s.lang, s.ageGroup, s.storyLength, s.creativityLevel,
             s.hero, s.location, s.style, s.idea, s.policyVersion, s.chapters, LatestIndex(s.chapters), now, now)
  }

  /** The story document after `writeStoryChapter`'s merge. */
  function ChapterWriteStory(existing: Option<StoryDoc>, storyId: string, uid: string, title: string,
                             lang: Option<string>, chapterIndex: int, now: int): (d: StoryDoc)
    ensures d.storyId == storyId && d.uid == uid && d.title == title
    ensures d.latestChapterIndex == chapterIndex && d.updatedAt == now
    ensures existing.Some? ==> d.createdAt == existing.value.createdAt
    ensures existing.None? ==> d.createdAt == now
    ensures lang.Some? ==> d.lang == lang
    ensures lang.None? && existing.Some? ==> d.lang == existing.value.lang
    ensures existing.Some? ==> d.chapters == existing.value.chapters
  {
    match existing
    case None =>
      StoryDoc(storyId, uid, title, lang, None, None, None, None, None, None, None, None, [], chapterIndex, now, now)
    case Some(e) =>
      e.(storyId := storyId, uid := uid, title := title, lang := if lang.Some? then lang else e.lang,
         latestChapterIndex := chapterIndex, updatedAt := now)
  }

  /** The sub-collection document after `writeStoryChapter`'s merge: every
      chapter member set, an earlier illustration time kept. */
  function ChapterWriteDoc(existing: Option<ChapterDoc>, storyId: string, c: ChapterRecord, now: int): ChapterDoc {
    ChapterDoc(Some(storyId), Some(c.chapterIndex), Some(c.title), Some(c.text), Some(c.progress), Some(c.choices),
               c.imageUrl, c.imageStoragePath, c.imagePrompt, Some(now),
               if existing.Some? then existing.value.imageGeneratedAt else None)
  }

  /** The sub-collection document after `updateChapterIllustration`: only the
      image members change. */
  function IllustrationDoc(existing: Option<ChapterDoc>, url: string, path: string, prompt: string, now: int): (d: ChapterDoc)
    ensures var e := existing.GetOr(EmptyChapterDoc);
      d == e.(imageUrl := Some(url), imageStoragePath := Some(path), imagePrompt := Some(prompt), imageGeneratedAt := Some(now))
  {
    existing.GetOr(EmptyChapterDoc).(imageUrl := Some(url), imageStoragePath := Some(path), imagePrompt := Some(prompt),
                                     imageGeneratedAt := Some(now))
  }

  function Lookup<K, V>(m: map<K, V>, k: K): Option<V> {
    if k in m then Some(m[k]) else None
  }

  /** The store. */
  class StoryStore {
    var usage: map<string, int>
    var stories: map<string, StoryDoc>
    var chapterDocs: map<(string, int), ChapterDoc>
    var audits: map<string, AuditDoc>

    ghost predicate Valid()
      reads this
    {
      DocsKeyed(chapterDocs)
    }

    constructor()
      ensures Valid()
      ensures usage == map[] && stories == map[] && chapterDocs == map[] && audits == map[]
    {
      usage := map[];
      stories := map[];
      chapterDocs := map[];
      audits := map[];
    }

    /** `enforceDailyLimit`: refuses once the day's count has reached the
        limit, writing nothing; otherwise counts the request. */
    method EnforceDailyLimit(uid: string, limit: int, day: string) returns (r: Result<(), Thrown>)
      modifies this
      requires Valid()
      ensures Valid()
      ensures var step := DailyStep(old(usage), UsageKey(uid, day), limit);
        && (r.Ok? <==> step.0) && usage == step.1
      ensures r.Err? ==> r.error == DailyLimitExceeded
      ensures stories == old(stories) && chapterDocs == old(chapterDocs) && audits == old(audits)
    {
      var key := UsageKey(uid, day);
      var current := if key in usage then usage[key] else 0;
      if current >= limit {
        return Err(DailyLimitExceeded);
      }
      usage := usage[key := current + 1];
      return Ok(());
    }

    /** `writeAudit`: the record under its request id, replacing any earlier
        one with the same id. */
    method WriteAudit(rec: AuditRecord, now: int)
      modifies this
      requires Valid()
      ensures Valid()
      ensures audits == old(audits)[rec.requestId := AuditDoc(rec, now)]
      ensures usage == old(usage) && stories == old(stories) && chapterDocs == old(chapterDocs)
    {
      audits := audits[rec.requestId := AuditDoc(rec, now)];
    }

    /** `upsertStorySession`. */
    method UpsertStorySession(s: Session, now: int)
      modifies this
      requires Valid()
      ensures Valid()
      ensures stories == old(stories)[s.storyId := SessionDoc(s, now)]
      ensures usage == old(usage) && chapterDocs == old(chapterDocs) && audits == old(audits)
    {
      stories := stories[s.storyId := SessionDoc(s, now)];
    }

    /** `writeStoryChapter`: the story's summary and the chapter's own
        document, written together. */
    method WriteStoryChapter(storyId: string, uid: string, title: string, lang: Option<string>,
                             chapter: ChapterRecord, now: int)
      modifies this
      requires Valid()
      ensures Valid()
      ensures stories == old(stories)[storyId := ChapterWriteStory(Lookup(old(stories), storyId), storyId, uid, title, lang, chapter.chapterIndex, now)]
      ensures chapterDocs == old(chapterDocs)[(storyId, chapter.chapterIndex) :=
                ChapterWriteDoc(Lookup(old(chapterDocs), (storyId, chapter.chapterIndex)), storyId, chapter, now)]
      ensures usage == old(usage) && audits == old(audits)
    {
      var existing := Lookup(stories, storyId);
      stories := stories[storyId := ChapterWriteStory(existing, storyId, uid, title, lang, chapter.chapterIndex, now)];
      var key := (storyId, chapter.chapterIndex);
      chapterDocs := chapterDocs[key := ChapterWriteDoc(Lookup(chapterDocs, key), storyId, chapter, now)];
    }

    /** `updateChapterIllustration`. */
    method UpdateChapterIllustration(storyId: string, chapterIndex: int, url: string, path: string, prompt: string, now: int)
      modifies this
      requires Valid()
      ensures Valid()
      ensures chapterDocs == old(chapterDocs)[(storyId, chapterIndex) :=
                IllustrationDoc(Lookup(old(chapterDocs), (storyId, chapterIndex)), url, path, prompt, now)]
      ensures usage == old(usage) && stories == old(stories) && audits == old(audits)
    {
      var key := (storyId, chapterIndex);
      chapterDocs := chapterDocs[key := IllustrationDoc(Lookup(chapterDocs, key), url, path, prompt, now)];
    }

    /** `listStoryChapters`. `queryFails` says whether the database refuses
        the ordered query. The documents come back greatest index first and
        are pushed one by one, then sorted ascending; as the indices are
        distinct, that sort reverses the list. */
    method ListStoryChapters(storyId: string, requested: Option<int>, queryFails: bool) returns (r: seq<ChapterRecord>)
      ensures r == ListSpec(stories, chapterDocs, storyId, requested, queryFails)
    {
      var limit := ClampLimit(requested);
      if queryFails {
        return LastChapters(stories, storyId, limit);
      }
      var docs := TopDesc(Indexed(chapterDocs, storyId), limit);
      IndexedInDocs(chapterDocs, storyId, docs);
      var out: seq<ChapterRecord> := [];
      var i := 0;
      while i < |docs|
        invariant 0 <= i <= |docs|
        invariant out == QueryRecords(chapterDocs, storyId, docs[..i])
      {
        QueryRecordsStep(chapterDocs, storyId, docs, i);
        out := out + [ToRecord(chapterDocs[(storyId, docs[i])], 0)];
        i := i + 1;
      }
      assert docs[..i] == docs;
      if |out| == 0 {
        return LastChapters(stories, storyId, limit);
      }
      return Reverse(out);
    }

    /** `getStoryChapter`. `lookupFails` says whether reading the
        sub-collection document fails. */
    method GetStoryChapter(storyId: string, chapterIndex: int, lookupFails: bool) returns (r: Option<ChapterRecord>)
      ensures r == ChapterSpec(stories, chapterDocs, storyId, chapterIndex, lookupFails)
    {
      if !lookupFails && (storyId, chapterIndex) in chapterDocs {
        return Some(ToRecord(chapterDocs[(storyId, chapterIndex)], chapterIndex));
      }
      if storyId !in stories {
        return None;
      }
      var cs := stories[storyId].chapters;
      var found := FindChapter(cs, chapterIndex, 0);
      if found.None? {
        return None;
      }
      return Some(cs[found.value].(chapterIndex := chapterIndex));
    }

    /** Reading a story document directly. */
    function StoryDocOf(storyId: string): (r: Option<StoryDoc>)
      reads this
      ensures r.Some? <==> storyId in stories
      ensures r.Some? ==> r.value == stories[storyId]
    {
      Lookup(stories, storyId)
    }
  }

  /** Writing a chapter records it as the latest, keeps the story's creation
      time, and keeps its language when none is given. */
  lemma ChapterWriteKeeps(existing: StoryDoc, storyId: string, uid: string, title: string, chapterIndex: int, now: int)
    ensures var d := ChapterWriteStory(Some(existing), storyId, uid, title, None, chapterIndex, now);
      d.latestChapterIndex == chapterIndex && d.createdAt == existing.createdAt && d.lang == existing.lang
      && d.chapters == existing.chapters && d.hero == existing.hero
  {
  }

  /** A session's latest index is its last chapter's, or 0 with no chapters. */
  lemma SessionLatest(s: Session, now: int)
    ensures |s.chapters| == 0 ==> SessionDoc(s, now).latestChapterIndex == 0
    ensures |s.chapters| > 0 ==> SessionDoc(s, now).latestChapterIndex == s.chapters[|s.chapters| - 1].chapterIndex
    ensures s.lang.None? ==> SessionDoc(s, now).lang.None?
  {
  }
}
