/** Identity of a request: a Firebase ID token in `Authorization: Bearer …`
    and an App Check token in `X-Firebase-AppCheck`. The token verifiers
    are outside this model; they are passed in as functions that either
    decode a token or refuse it. */
module Auth {
  import opened Base
  import opened Text
  import opened Errors

  // ---------------------------------------------------------------------
  // Header extraction
  // ---------------------------------------------------------------------

  /** Length of the run of whitespace at the start of `s`. */
  function LeadingSpace(s: string): (n: nat)
    ensures n <= |s| && AllSpace(s[..n])
    ensures n == |s| || !IsSpace(s[n])
  {
    if |s| > 0 && IsSpace(s[0]) then
      var rest := LeadingSpace(s[1..]);
      assert s[..1 + rest] == [s[0]] + s[1..][..rest];
      1 + rest
    else 0
  }

  predicate NoLineTerminator(s: string) {
    forall i :: 0 <= i < |s| ==> !IsLineTerminator(s[i])
  }

  /** The prefix `Bearer` in any ASCII letter case. */
  predicate BearerPrefix(h: string) {
    |h| >= 6 && ToLower(h[..6]) == "bearer"
  }

  /** `^Bearer\s+(.+)$` with flag `i` matches `h` when the group starts at
      offset `6 + k`: `k` whitespace characters after the prefix, then at
      least one character, none of them a line terminator. */
  ghost predicate BearerMatchAt(h: string, k: int) {
    BearerPrefix(h) && 1 <= k && 6 + k < |h| && AllSpace(h[6..6 + k]) && NoLineTerminator(h[6 + k..])
  }

  /** `getBearerToken`: the trimmed group of the match, or nothing when the
      header is missing, empty or does not match. Whichever split of the
      whitespace the regular expression settles on, the trimmed group is
      the same: the text after the prefix, trimmed. */
  function GetBearerToken(header: Option<string>): (r: Option<string>)
    ensures r.Some? <==> header.Some? && exists k :: BearerMatchAt(header.value, k)
    ensures r.Some? ==> r.value == Trim(header.value[6..])
    ensures r.Some? ==> forall k :: BearerMatchAt(header.value, k) ==> r.value == Trim(header.value[6 + k..])
  {
    if header.None? || header.value == "" || !BearerPrefix(header.value) then None
    else
      MatchesExactly(header.value);
      GroupTrim(header.value);
      if TriedSplitMatches(header.value) then Some(Trim(header.value[6..])) else None
  }

  /** The split the function tries: all the leading whitespace after the
      prefix, but leaving at least one character for the group. */
  function TriedSplit(rest: string): int {
    if LeadingSpace(rest) < |rest| - 1 then LeadingSpace(rest) else |rest| - 1
  }

  predicate TriedSplitMatches(h: string)
    requires |h| >= 6
  {
    var k := TriedSplit(h[6..]);
    k >= 1 && NoLineTerminator(h[6..][k..])
  }

  /** Trying the one split decides whether any split matches. */
  lemma MatchesExactly(h: string)
    requires BearerPrefix(h)
    ensures TriedSplitMatches(h) <==> exists k :: BearerMatchAt(h, k)
  {
    if TriedSplitMatches(h) {
      SplitMatches(h);
      assert BearerMatchAt(h, TriedSplit(h[6..]));
    } else {
      GreatestSplit(h);
    }
  }

  /** The split the function tries is a match when its group has no line
      terminator. */
  lemma SplitMatches(h: string)
    requires BearerPrefix(h)
    ensures TriedSplitMatches(h) ==> BearerMatchAt(h, TriedSplit(h[6..]))
  {
    var rest := h[6..];
    var n := LeadingSpace(rest);
    var k := TriedSplit(rest);
    if k >= 1 && NoLineTerminator(rest[k..]) {
      assert h[6..6 + k] == rest[..k];
      assert h[6 + k..] == rest[k..];
      forall i | 0 <= i < k ensures IsSpace(rest[..k][i]) {
        assert rest[..k][i] == rest[..n][i];
      }
    }
  }

  /** The greatest admissible split is the one to try: any other admissible
      split leaves a longer group, which has every line terminator the
      shorter one has. */
  lemma GreatestSplit(h: string)
    requires BearerPrefix(h)
    ensures forall m :: BearerMatchAt(h, m) ==> TriedSplitMatches(h)
  {
    var rest := h[6..];
    forall m | BearerMatchAt(h, m) ensures TriedSplitMatches(h) {
      assert h[6..6 + m] == rest[..m];
    }
  }

  lemma GroupTrim(h: string)
    requires |h| >= 6
    ensures forall k :: BearerMatchAt(h, k) ==> Trim(h[6..]) == Trim(h[6 + k..])
  {
    forall k | BearerMatchAt(h, k) ensures Trim(h[6..]) == Trim(h[6 + k..]) {
      assert h[6..] == h[6..6 + k] + h[6 + k..];
      TrimAfterSpace(h[6..6 + k], h[6 + k..]);
    }
  }

  /** `getAppCheckToken`: the trimmed header, or nothing when it is missing
      or empty. A whitespace-only header gives the empty string, which the
      caller treats as missing. */
  function GetAppCheckToken(header: Option<string>): (r: Option<string>)
    ensures r.Some? <==> header.Some? && header.value != ""
    ensures r.Some? ==> r.value == Trim(header.value)
  {
    if header.None? || header.value == "" then None else Some(Trim(header.value))
  }

  // ---------------------------------------------------------------------
  // Verification
  // ---------------------------------------------------------------------

  /** What the ID-token verifier returns: the decoded claims. */
  datatype IdToken = IdToken(uid: string)

  /** What the App Check verifier returns. */
  datatype AppCheckToken = AppCheckToken(appId: string)

  datatype VerifiedAuth = VerifiedAuth(uid: string, idToken: IdToken, appCheckToken: Option<AppCheckToken>)

  const AnonPrefix := "anon_"

  /** The error raised at each refusal. */
  const AuthMissing := Fail(401, "AUTH_MISSING", "Unauthorized")
  const AuthInvalid := Fail(401, "AUTH_INVALID", "Unauthorized")
  const AppCheckMissing := Fail(403, "APPCHECK_MISSING", "App Check required")
  const AppCheckInvalid := Fail(403, "APPCHECK_INVALID", "App Check invalid")

  /** A bearer token the caller may rely on: present and not blank. */
  predicate HasToken(t: Option<string>) { t.Some? && t.value != "" }

  /** `verifyRequestTokens`. `verifyIdToken` and `verifyAppCheck` stand for
      the Firebase verifiers (`None` when they reject the token); `anonId`
      stands for the fresh UUID of an anonymous caller. The identity is
      settled before App Check is looked at. */
  method VerifyRequestTokens(
    authorization: Option<string>, appCheckHeader: Option<string>,
    authRequired: bool, appCheckRequired: bool, anonId: string,
    verifyIdToken: string -> Option<IdToken>, verifyAppCheck: string -> Option<AppCheckToken>)
    returns (r: Result<VerifiedAuth, Thrown>)
    ensures var bearer := GetBearerToken(authorization);
      && (!HasToken(bearer) && authRequired ==> r == Err(AuthMissing))
      && (HasToken(bearer) && verifyIdToken(bearer.value).None? ==> r == Err(AuthInvalid))
    ensures var bearer := GetBearerToken(authorization);
      var identified := if HasToken(bearer) then verifyIdToken(bearer.value).Some? else !authRequired;
      var appCheck := GetAppCheckToken(appCheckHeader);
      && (identified && !HasToken(appCheck) && appCheckRequired ==> r == Err(AppCheckMissing))
      && (identified && HasToken(appCheck) && verifyAppCheck(appCheck.value).None? ==> r == Err(AppCheckInvalid))
      && (r.Ok? <==> identified && (if HasToken(appCheck) then verifyAppCheck(appCheck.value).Some? else !appCheckRequired))
    ensures r.Ok? ==> r.value.uid == r.value.idToken.uid
    ensures r.Ok? ==> var bearer := GetBearerToken(authorization);
      if HasToken(bearer) then r.value.idToken == verifyIdToken(bearer.value).value
      else r.value.uid == AnonPrefix + anonId
    ensures r.Ok? ==> var appCheck := GetAppCheckToken(appCheckHeader);
      if HasToken(appCheck) then r.value.appCheckToken == verifyAppCheck(appCheck.value)
      else r.value.appCheckToken.None?
  {
    var bearer := GetBearerToken(authorization);
    var decoded: IdToken;
    if !HasToken(bearer) {
      if authRequired {
        return Err(AuthMissing);
      }
      decoded := IdToken(AnonPrefix + anonId);
    } else {
      var verified := verifyIdToken(bearer.value);
      if verified.None? {
        return Err(AuthInvalid);
      }
      decoded := verified.value;
    }

    var appCheckToken: Option<AppCheckToken> := None;
    var appCheckRaw := GetAppCheckToken(appCheckHeader);
    if !HasToken(appCheckRaw) {
      if appCheckRequired {
        return Err(AppCheckMissing);
      }
    } else {
      var verified := verifyAppCheck(appCheckRaw.value);
      if verified.None? {
        return Err(AppCheckInvalid);
      }
      appCheckToken := verified;
    }

    return Ok(VerifiedAuth(decoded.uid, decoded, appCheckToken));
  }
}
