/** The system prompt sent with every illustration request: fixed safety
    lines around the target age, language, size, aspect ratio and style. */
module ImagePrompt {
  import opened Base
  import opened Text

  const DefaultSize := "768x768"
  const DefaultStyle :=
    "simple 2D children's book illustration, " + "clean lines, flat shading, "
    + "minimal background, soft pastel colors, " + "no complex textures, no photorealism, "
    + "single subject, centered composition"
  const DefaultAgeRange := "for kids aged 3–7"

  /** `sizeToAspectRatio`: only the wide size is 16:9. */
  function SizeToAspectRatio(size: string): (r: string)
    ensures r == "16:9" <==> size == "1280x720"
    ensures r == "1:1" <==> size != "1280x720"
  {
    if size == "1280x720" then "16:9" else "1:1"
  }

  /** `ageGroupToRange`: the three age groups after trimming, else the default range. */
  function AgeGroupToRange(ageGroup: Option<string>): (r: string)
    ensures var v := Trim(ageGroup.GetOr(""));
      && (v == "3_5" ==> r == "for kids aged 3–5")
      && (v == "6_8" ==> r == "for kids aged 6–8")
      && (v == "9_12" ==> r == "for kids aged 9–12")
      && (v != "3_5" && v != "6_8" && v != "9_12" ==> r == DefaultAgeRange)
  {
    var v := Trim(ageGroup.GetOr(""));
    if v == "3_5" then "for kids aged 3–5"
    else if v == "6_8" then "for kids aged 6–8"
    else if v == "9_12" then "for kids aged 9–12"
    else DefaultAgeRange
  }

  const IntroLine := "You are generating " + "a kid-friendly 2D illustration " + "for a children's story."
  const RealismLine := "No photorealism. No camera/photography terms. No realistic skin texture."
  const ShapesLine := "Simple shapes, soft colors, clean outlines, gentle lighting, minimal background."
  const MoodLine := "Warm, friendly mood. Non-scary, calm and reassuring."
  const SceneLine := "Single subject, centered composition, one clear scene. No text overlay."
  const SafetyLine := "Safety: no violence, " + "no horror, no weapons, " + "no hateful symbols."

  /** The ten lines of the prompt, in the order the source lists them. */
  function PromptLines(ageRange: string, lang: string, size: string, aspectRatio: string, style: string): (ls: seq<string>)
    ensures |ls| == 10 && ls[0] == IntroLine && ls[9] == SafetyLine
  {
    [IntroLine,
     "Target age: " + ageRange + ".",
     "Language/locale: " + lang + ".",
     "Image size: " + size + ". Aspect ratio: " + aspectRatio + ".",
     "Style: " + style + ".",
     RealismLine, ShapesLine, MoodLine, SceneLine, SafetyLine]
  }

  /** The lines joined with line feeds. The source trims the joined text;
      `PromptTextTrimmed` shows that this changes nothing, so the model
      leaves the trim out. */
  function PromptText(ageRange: string, lang: string, size: string, aspectRatio: string, style: string): string {
    Join(PromptLines(ageRange, lang, size, aspectRatio, style), "\n")
  }

  datatype ImagePromptResult = ImagePromptResult(systemPrompt: string, size: string, aspectRatio: string, style: string, ageRange: string)

  /** `buildUniversalImageSystemPrompt`. */
  function BuildImagePrompt(lang: string, ageGroup: Option<string>, size: Option<string>, style: Option<string>): (r: ImagePromptResult)
    ensures r.size == size.GetOr(DefaultSize)
    ensures r.aspectRatio == SizeToAspectRatio(r.size)
    ensures r.style == (if Trim(style.GetOr(DefaultStyle)) == "" then DefaultStyle else Trim(style.GetOr(DefaultStyle)))
    ensures r.style != "" && IsTrimmed(r.style)
    ensures r.ageRange == AgeGroupToRange(ageGroup)
    ensures r.systemPrompt == PromptText(r.ageRange, lang, r.size, r.aspectRatio, r.style)
  {
    var s := size.GetOr(DefaultSize);
    var ratio := SizeToAspectRatio(s);
    var trimmed := Trim(style.GetOr(DefaultStyle));
    var st := if trimmed == "" then DefaultStyle else trimmed;
    DefaultStyleTrimmed();
    var ageRange := AgeGroupToRange(ageGroup);
    ImagePromptResult(PromptText(ageRange, lang, s, ratio, st), s, ratio, st, ageRange)
  }

  lemma PromptTextTrimmed(ageRange: string, lang: string, size: string, aspectRatio: string, style: string)
    ensures Trim(PromptText(ageRange, lang, size, aspectRatio, style)) == PromptText(ageRange, lang, size, aspectRatio, style)
  {
    var ls := PromptLines(ageRange, lang, size, aspectRatio, style);
    var t := PromptText(ageRange, lang, size, aspectRatio, style);
    assert IntroLine[0] == 'Y';
    assert SafetyLine[|SafetyLine| - 1] == '.';
    JoinStart(ls, "\n");
    JoinEnd(ls, "\n");
    TrimOfTrimmed(t);
  }

  lemma DefaultStyleTrimmed()
    ensures IsTrimmed(DefaultStyle) && DefaultStyle != ""
  {
  }

  /** A style given as absent or blank falls back to the default style. */
  lemma BlankStyleIsDefault(lang: string, ageGroup: Option<string>, size: Option<string>, style: Option<string>)
    requires style.None? || AllSpace(style.value)
    ensures BuildImagePrompt(lang, ageGroup, size, style).style == DefaultStyle
  {
    DefaultStyleTrimmed();
    TrimOfTrimmed(DefaultStyle);
  }
}
