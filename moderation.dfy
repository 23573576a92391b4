/** Keyword moderation: a text is blocked when it is longer than allowed or
    when one of five category rules matches it as a whole word, ignoring
    ASCII case. Categories are tried in a fixed order and the first one that
    matches gives the reason. */
module Moderation {
  import opened Base
  import opened Text

  /** One category: alternative phrases, each a list of lower-case words that
      the text must show separated by runs of whitespace (`\s+`), with a word
      boundary (`\b`) before the first word and after the last. */
  datatype Rule = Rule(alternatives: seq<seq<string>>, reason: string)

  datatype ModerationResult = ModerationResult(allowed: bool, reason: Option<string>)

  /** The ordered category rules. `drugs?` is written as its two spellings. */
  const BannedPatterns: seq<Rule> := [
    Rule([["sex"], ["porn"], ["nude"], ["naked"], ["erotic"]], "sexual content"),
    Rule([["suicide"], ["kill", "myself"], ["self-harm"], ["cut", "myself"]], "self-harm"),
    Rule([["drug"], ["drugs"], ["cocaine"], ["heroin"], ["meth"], ["weed"], ["marijuana"]], "drugs"),
    Rule([["gun"], ["knife"], ["stab"], ["shoot"], ["blood"], ["gore"]], "violence"),
    Rule([["hate", "speech"], ["nazi"], ["kkk"]], "hate/extremism")
  ]

  const TooLong := "input too long"

  /** Characters of `\w`; a word boundary lies between a word character and
      a non-word character (or either end of the text). */
  predicate IsWordChar(c: char) {
    ('a' <= c <= 'z') || ('A' <= c <= 'Z') || ('0' <= c <= '9') || c == '_'
  }

  predicate IsLowerLetter(c: char) { 'a' <= c <= 'z' }

  /** A word of a rule: lower-case letters and hyphens, starting and ending
      with a letter. So `\b` before and after the phrase reduces to "no word
      character outside it", and case folding cannot change the word. */
  predicate WellFormedWord(w: string) {
    |w| > 0 && IsLowerLetter(w[0]) && IsLowerLetter(w[|w| - 1])
    && forall k :: 0 <= k < |w| ==> IsLowerLetter(w[k]) || w[k] == '-'
  }

  predicate WellFormedPhrase(p: seq<string>) {
    |p| > 0 && forall k :: 0 <= k < |p| ==> WellFormedWord(p[k])
  }

  predicate WellFormedRule(r: Rule) {
    forall a :: 0 <= a < |r.alternatives| ==> WellFormedPhrase(r.alternatives[a])
  }

  lemma BannedPatternsWellFormed()
    ensures forall k :: 0 <= k < |BannedPatterns| ==> WellFormedRule(BannedPatterns[k])
  {
    SexualWellFormed();
    SelfHarmWellFormed();
    DrugsWellFormed();
    ViolenceWellFormed();
    HateWellFormed();
  }

  lemma SexualWellFormed() ensures WellFormedRule(BannedPatterns[0]) { }
  lemma SelfHarmWellFormed() ensures WellFormedRule(BannedPatterns[1]) {
    assert WellFormedWord("suicide");
    assert WellFormedWord("kill") && WellFormedWord("myself");
    assert WellFormedWord("self-harm");
    assert WellFormedWord("cut");
  }
  lemma DrugsWellFormed() ensures WellFormedRule(BannedPatterns[2]) { }
  lemma ViolenceWellFormed() ensures WellFormedRule(BannedPatterns[3]) { }
  lemma HateWellFormed() ensures WellFormedRule(BannedPatterns[4]) { }

  /** The word `w` appears at offset `i`, ignoring ASCII case. */
  predicate WordAt(t: string, i: nat, w: string) {
    i + |w| <= |t| && forall k :: 0 <= k < |w| ==> LowerChar(t[i + k]) == w[k]
  }

  /** First offset at or after `j` that is not whitespace. */
  function SpaceRunEnd(t: string, j: nat): (k: nat)
    requires j <= |t|
    ensures j <= k <= |t|
    ensures forall m :: j <= m < k ==> IsSpace(t[m])
    ensures k == |t| || !IsSpace(t[k])
    decreases |t| - j
  {
    if j < |t| && IsSpace(t[j]) then SpaceRunEnd(t, j + 1) else j
  }

  /** Where the phrase ends when it is matched from offset `i`, if it is. */
  function PhraseEnd(t: string, i: nat, p: seq<string>): (e: Option<nat>)
    requires |p| > 0 && i <= |t|
    ensures e.Some? ==> i + |p[0]| <= e.value <= |t|
    decreases |p|
  {
    if !WordAt(t, i, p[0]) then None
    else if |p| == 1 then Some(i + |p[0]|)
    else
      var j := i + |p[0]|;
      var k := SpaceRunEnd(t, j);
      if k == j then None else PhraseEnd(t, k, p[1..])
  }

  /** `\b(phrase)\b` matches at offset `i`. */
  predicate MatchAt(t: string, i: nat, p: seq<string>) {
    |p| > 0 && i <= |t|
    && (i == 0 || !IsWordChar(t[i - 1]))
    && var e := PhraseEnd(t, i, p);
       e.Some? && (e.value == |t| || !IsWordChar(t[e.value]))
  }

  /** The rule's regular expression finds a match somewhere in `t`. */
  ghost predicate RuleHits(t: string, r: Rule) {
    exists i: nat, a :: 0 <= a < |r.alternatives| && MatchAt(t, i, r.alternatives[a])
  }

  /** Some alternative of the rule matches at offset `i`. */
  function AnyAlternativeAt(t: string, i: nat, alts: seq<seq<string>>): (b: bool)
    ensures b <==> exists a :: 0 <= a < |alts| && MatchAt(t, i, alts[a])
  {
    if |alts| == 0 then false
    else if MatchAt(t, i, alts[0]) then true
    else
      var rest := AnyAlternativeAt(t, i, alts[1..]);
      assert rest <==> exists a :: 0 <= a < |alts| && MatchAt(t, i, alts[a]) by {
        if exists a :: 0 <= a < |alts| && MatchAt(t, i, alts[a]) {
          var a :| 0 <= a < |alts| && MatchAt(t, i, alts[a]);
          assert a != 0 && alts[1..][a - 1] == alts[a];
        }
        if rest {
          var a :| 0 <= a < |alts[1..]| && MatchAt(t, i, alts[1..][a]);
          assert alts[a + 1] == alts[1..][a];
        }
      }
      rest
  }

  /** The regular-expression scan: try every start offset from `i` on. */
  function HitsFrom(t: string, r: Rule, i: nat): (b: bool)
    requires i <= |t| + 1
    ensures b <==> exists j: nat, a :: i <= j && 0 <= a < |r.alternatives| && MatchAt(t, j, r.alternatives[a])
    decreases |t| + 1 - i
  {
    if i > |t| then false
    else if AnyAlternativeAt(t, i, r.alternatives) then true
    else
      var rest := HitsFrom(t, r, i + 1);
      assert rest <==> exists j: nat, a :: i <= j && 0 <= a < |r.alternatives| && MatchAt(t, j, r.alternatives[a]) by {
        if exists j: nat, a :: i <= j && 0 <= a < |r.alternatives| && MatchAt(t, j, r.alternatives[a]) {
          var j: nat, a :| i <= j && 0 <= a < |r.alternatives| && MatchAt(t, j, r.alternatives[a]);
          assert j != i;
        }
      }
      rest
  }

  /** `rule.re.test(t)`. */
  function Hits(t: string, r: Rule): (b: bool)
    ensures b <==> RuleHits(t, r)
  {
    HitsFrom(t, r, 0)
  }

  /** The scan over the categories from index `k` on: the first one that hits
      gives the reason. */
  function FirstHit(t: string, rules: seq<Rule>, k: nat): (r: ModerationResult)
    requires k <= |rules|
    ensures r.allowed <==> forall j :: k <= j < |rules| ==> !RuleHits(t, rules[j])
    ensures r.allowed ==> r.reason == None
    ensures !r.allowed ==>
      exists j :: k <= j < |rules| && RuleHits(t, rules[j])
        && r.reason == Some(rules[j].reason)
        && forall m :: k <= m < j ==> !RuleHits(t, rules[m])
    decreases |rules| - k
  {
    if k == |rules| then ModerationResult(true, None)
    else if Hits(t, rules[k]) then ModerationResult(false, Some(rules[k].reason))
    else FirstHit(t, rules, k + 1)
  }

  /** `moderateText(text, maxChars)`. */
  function ModerateText(text: string, maxChars: int): (r: ModerationResult)
    ensures |text| > maxChars ==> r == ModerationResult(false, Some(TooLong))
    ensures r.allowed <==>
      (|text| <= maxChars && forall j :: 0 <= j < |BannedPatterns| ==> !RuleHits(text, BannedPatterns[j]))
    ensures r.allowed ==> r.reason == None
    ensures !r.allowed && |text| <= maxChars ==>
      exists j :: 0 <= j < |BannedPatterns| && RuleHits(text, BannedPatterns[j])
        && r.reason == Some(BannedPatterns[j].reason)
        && forall m :: 0 <= m < j ==> !RuleHits(text, BannedPatterns[m])
  {
    if |text| > maxChars then ModerationResult(false, Some(TooLong))
    else FirstHit(text, BannedPatterns, 0)
  }

  // ---------------------------------------------------------------------
  // Case-insensitivity: folding the text to lower case changes no match.

  lemma {:induction false} SpaceRunEndLower(t: string, j: nat)
    requires j <= |t|
    ensures SpaceRunEnd(ToLower(t), j) == SpaceRunEnd(t, j)
    decreases |t| - j
  {
    if j < |t| {
      assert ToLower(t)[j] == LowerChar(t[j]);
      assert IsSpace(LowerChar(t[j])) <==> IsSpace(t[j]);
      if IsSpace(t[j]) { SpaceRunEndLower(t, j + 1); }
    }
  }

  lemma {:induction false} PhraseEndLower(t: string, i: nat, p: seq<string>)
    requires |p| > 0 && i <= |t|
    ensures PhraseEnd(ToLower(t), i, p) == PhraseEnd(t, i, p)
    decreases |p|
  {
    var lt := ToLower(t);
    assert WordAt(lt, i, p[0]) <==> WordAt(t, i, p[0]) by {
      if i + |p[0]| <= |t| {
        forall k | 0 <= k < |p[0]| ensures LowerChar(lt[i + k]) == p[0][k] <==> LowerChar(t[i + k]) == p[0][k] {
          assert lt[i + k] == LowerChar(t[i + k]);
        }
      }
    }
    if WordAt(t, i, p[0]) && |p| > 1 {
      SpaceRunEndLower(t, i + |p[0]|);
      var k := SpaceRunEnd(t, i + |p[0]|);
      if k != i + |p[0]| { PhraseEndLower(t, k, p[1..]); }
    }
  }

  lemma MatchAtLower(t: string, i: nat, p: seq<string>)
    ensures MatchAt(ToLower(t), i, p) <==> MatchAt(t, i, p)
  {
    if |p| > 0 && i <= |t| {
      PhraseEndLower(t, i, p);
      if i > 0 { assert ToLower(t)[i - 1] == LowerChar(t[i - 1]); }
      var e := PhraseEnd(t, i, p);
      if e.Some? && e.value < |t| { assert ToLower(t)[e.value] == LowerChar(t[e.value]); }
    }
  }

  /** Moderation ignores ASCII case: a text and its lower-case form get the
      same verdict and reason. */
  lemma CaseInsensitive(t: string, maxChars: int)
    ensures ModerateText(ToLower(t), maxChars) == ModerateText(t, maxChars)
  {
    forall r: Rule ensures RuleHits(ToLower(t), r) <==> RuleHits(t, r) {
      forall i: nat, a | 0 <= a < |r.alternatives|
        ensures MatchAt(ToLower(t), i, r.alternatives[a]) <==> MatchAt(t, i, r.alternatives[a])
      {
        MatchAtLower(t, i, r.alternatives[a]);
      }
    }
    assert forall k :: 0 <= k < |BannedPatterns| ==>
      Hits(ToLower(t), BannedPatterns[k]) == Hits(t, BannedPatterns[k]);
    FirstHitSame(ToLower(t), t, BannedPatterns, 0);
  }

  lemma {:induction false} FirstHitSame(t1: string, t2: string, rules: seq<Rule>, k: nat)
    requires k <= |rules|
    requires forall j :: 0 <= j < |rules| ==> Hits(t1, rules[j]) == Hits(t2, rules[j])
    ensures FirstHit(t1, rules, k) == FirstHit(t2, rules, k)
    decreases |rules| - k
  {
    if k < |rules| { FirstHitSame(t1, t2, rules, k + 1); }
  }

  // ---------------------------------------------------------------------
  // Whole-word and whitespace-run matching.

  /** A banned word standing alone, with a non-word character (or the end of
      the text) on each side, blocks the text, e.g. "A story about a gun". */
  lemma WholeWordBlocks(x: string, y: string, k: nat, a: nat, maxChars: int)
    requires k < |BannedPatterns| && a < |BannedPatterns[k].alternatives|
    requires |BannedPatterns[k].alternatives[a]| == 1
    requires x == [] || !IsWordChar(x[|x| - 1])
    requires y == [] || !IsWordChar(y[0])
    requires |x + BannedPatterns[k].alternatives[a][0] + y| <= maxChars
    ensures !ModerateText(x + BannedPatterns[k].alternatives[a][0] + y, maxChars).allowed
  {
    var p := BannedPatterns[k].alternatives[a];
    BannedPatternsWellFormed();
    assert WellFormedPhrase(p);
    StandaloneWordMatches(x, p[0], y);
    assert [p[0]] == p;
    MatchBlocks(x + p[0] + y, |x|, k, a, maxChars);
  }

  /** A word with no word character next to it matches as a one-word phrase. */
  lemma StandaloneWordMatches(x: string, w: string, y: string)
    requires WellFormedWord(w)
    requires x == [] || !IsWordChar(x[|x| - 1])
    requires y == [] || !IsWordChar(y[0])
    ensures MatchAt(x + w + y, |x|, [w])
  {
    var t := x + w + y;
    assert WordAt(t, |x|, w) by {
      forall m | 0 <= m < |w| ensures LowerChar(t[|x| + m]) == w[m] {
        assert t[|x| + m] == w[m];
        assert IsLowerLetter(w[m]) || w[m] == '-';
      }
    }
    if |x| > 0 { assert t[|x| - 1] == x[|x| - 1]; }
    if |y| > 0 { assert t[|x| + |w|] == y[0]; }
  }

  /** A match of any alternative of any category, in a text within the
      limit, blocks the text. */
  lemma MatchBlocks(t: string, i: nat, k: nat, a: nat, maxChars: int)
    requires k < |BannedPatterns| && a < |BannedPatterns[k].alternatives|
    requires MatchAt(t, i, BannedPatterns[k].alternatives[a])
    requires |t| <= maxChars
    ensures !ModerateText(t, maxChars).allowed
  {
    assert RuleHits(t, BannedPatterns[k]);
  }

  /** The two-word phrases allow any run of whitespace between the words:
      "kill" + run + "myself" is blocked for every non-empty run. */
  lemma WhitespaceRunBlocks(run: string, maxChars: int)
    requires |run| > 0 && AllSpace(run)
    requires |"kill" + run + "myself"| <= maxChars
    ensures !ModerateText("kill" + run + "myself", maxChars).allowed
  {
    var t := "kill" + run + "myself";
    var p := ["kill", "myself"];
    assert WordAt(t, 0, "kill") by {
      forall m | 0 <= m < 4 ensures LowerChar(t[m]) == "kill"[m] { assert t[m] == "kill"[m]; }
    }
    var k := SpaceRunEnd(t, 4);
    assert k == 4 + |run| by {
      forall m | 4 <= m < 4 + |run| ensures IsSpace(t[m]) { assert t[m] == run[m - 4]; }
      assert t[4 + |run|] == 'm';
      SpaceRunEndIs(t, 4, 4 + |run|);
    }
    assert WordAt(t, k, "myself") by {
      forall m | 0 <= m < 6 ensures LowerChar(t[k + m]) == "myself"[m] { assert t[k + m] == "myself"[m]; }
    }
    assert PhraseEnd(t, 0, p) == PhraseEnd(t, k, p[1..]);
    assert p[1..] == ["myself"];
    assert PhraseEnd(t, k, ["myself"]) == Some(|t|);
    assert MatchAt(t, 0, p);
    MatchBlocks(t, 0, 1, 1, maxChars);
  }

  lemma {:induction false} SpaceRunEndIs(t: string, j: nat, k: nat)
    requires j <= k < |t|
    requires forall m :: j <= m < k ==> IsSpace(t[m])
    requires !IsSpace(t[k])
    ensures SpaceRunEnd(t, j) == k
    decreases k - j
  {
    if j < k { SpaceRunEndIs(t, j + 1, k); }
  }
}
