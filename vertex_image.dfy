/** Illustration generation through the Vertex AI `predict` endpoint: the
    request sent, the search for the first base64 image in a prediction,
    and the classification of the response into an image or an error.
    The network call, the access-token lookup and base64 decoding are
    parameters. */
module VertexImage {
  import opened Base
  import opened Text
  import opened Errors

  // ---------------------------------------------------------------------
  // Picking the image out of a prediction
  // ---------------------------------------------------------------------

  /** `typeof j.key === 'string' && j.key.trim()`: a string member that is
      not blank. */
  predicate HasB64(j: Json, key: string) {
    j.JObj? && key in j.fields && j.fields[key].JStr? && !AllSpace(j.fields[key].s)
  }

  function B64Of(j: Json, key: string): (r: string)
    requires HasB64(j, key)
    ensures r == Trim(j.fields[key].s)
    ensures r != "" && IsTrimmed(r)
  {
    var r := Trim(j.fields[key].s);
    r
  }

  /** A member value is "nullish" when it is missing or `null`. */
  predicate Nullish(v: Option<Json>) { v.None? || v.value.JNull? }

  /** JavaScript's `a ?? b` on member values. */
  function Coalesce(a: Option<Json>, b: Option<Json>): (r: Option<Json>)
    ensures !Nullish(a) ==> r == a
    ensures Nullish(a) ==> r == b
  {
    if Nullish(a) then b else a
  }

  /** The nested shape `{image: {bytesBase64Encoded}}` with a usable value. */
  predicate NestedHasB64(pred: Json) {
    pred.JObj? && "image" in pred.fields && HasB64(pred.fields["image"], "bytesBase64Encoded")
  }

  /** The prediction carries an `images` array. */
  predicate HasImages(pred: Json) {
    pred.JObj? && "images" in pred.fields && pred.fields["images"].JArr?
  }

  /** What `pickFirstBase64` finds: the trimmed base64 text and the raw
      `mimeType` member that goes with it (missing when `None`). */
  datatype Picked = Picked(b64: string, mimeType: Option<Json>)

  /** Position of the first entry of `images` with a non-blank
      `bytesBase64Encoded`, looking from `i` on. */
  function FirstImageFrom(images: seq<Json>, i: nat): (r: Option<nat>)
    requires i <= |images|
    ensures r.Some? ==> i <= r.value < |images| && HasB64(images[r.value], "bytesBase64Encoded")
    ensures r.Some? ==> forall k :: i <= k < r.value ==> !HasB64(images[k], "bytesBase64Encoded")
    ensures r.None? ==> forall k :: i <= k < |images| ==> !HasB64(images[k], "bytesBase64Encoded")
    decreases |images| - i
  {
    if i == |images| then None
    else if HasB64(images[i], "bytesBase64Encoded") then Some(i)
    else FirstImageFrom(images, i + 1)
  }

  /** `pickFirstBase64`, in the source's order: the prediction's own
      `bytesBase64Encoded`, then `bytes_base64_encoded`, then
      `image.bytesBase64Encoded`, then the first usable `images[]` entry.
      Values that are not objects (including `null`) have no members, so
      they give nothing. */
  function PickFirstBase64(pred: Json): (r: Option<Picked>)
    ensures r.Some? ==> r.value.b64 != "" && IsTrimmed(r.value.b64)
  {
    if HasB64(pred, "bytesBase64Encoded") then
      Some(Picked(B64Of(pred, "bytesBase64Encoded"), Member(pred, "mimeType")))
    else if HasB64(pred, "bytes_base64_encoded") then
      Some(Picked(B64Of(pred, "bytes_base64_encoded"), Member(pred, "mimeType")))
    else if NestedHasB64(pred) then
      var img := pred.fields["image"];
      Some(Picked(B64Of(img, "bytesBase64Encoded"), Coalesce(Member(img, "mimeType"), Member(pred, "mimeType"))))
    else if HasImages(pred) then
      var images := pred.fields["images"].items;
      match FirstImageFrom(images, 0)
      case None => None
      case Some(k) =>
        Some(Picked(B64Of(images[k], "bytesBase64Encoded"), Coalesce(Member(images[k], "mimeType"), Member(pred, "mimeType"))))
    else None
  }

  /** A candidate later in the order is used only when every earlier one is
      missing or blank. */
  lemma PickPrecedence(pred: Json)
    ensures HasB64(pred, "bytesBase64Encoded") ==>
      PickFirstBase64(pred) == Some(Picked(Trim(pred.fields["bytesBase64Encoded"].s), Member(pred, "mimeType")))
    ensures !HasB64(pred, "bytesBase64Encoded") && HasB64(pred, "bytes_base64_encoded") ==>
      PickFirstBase64(pred) == Some(Picked(Trim(pred.fields["bytes_base64_encoded"].s), Member(pred, "mimeType")))
    ensures !HasB64(pred, "bytesBase64Encoded") && !HasB64(pred, "bytes_base64_encoded") && NestedHasB64(pred) ==>
      var img := pred.fields["image"];
      PickFirstBase64(pred) == Some(Picked(Trim(img.fields["bytesBase64Encoded"].s), Coalesce(Member(img, "mimeType"), Member(pred, "mimeType"))))
  {
  }

  /** The `images[]` case: the entry used is the first usable one, and the
      prediction's own `mimeType` is used only when the entry has none. */
  lemma PickFromImages(pred: Json, k: nat)
    requires !HasB64(pred, "bytesBase64Encoded") && !HasB64(pred, "bytes_base64_encoded")
    requires !NestedHasB64(pred) && HasImages(pred)
    requires var images := pred.fields["images"].items;
      k < |images| && HasB64(images[k], "bytesBase64Encoded")
      && forall m :: 0 <= m < k ==> !HasB64(images[m], "bytesBase64Encoded")
    ensures var img := pred.fields["images"].items[k];
      PickFirstBase64(pred) == Some(Picked(Trim(img.fields["bytesBase64Encoded"].s), Coalesce(Member(img, "mimeType"), Member(pred, "mimeType"))))
  {
    var images := pred.fields["images"].items;
    assert FirstImageFrom(images, 0) == Some(k);
  }

  /** Nothing is found exactly when no candidate of any of the four shapes
      is usable; in particular `null` and non-objects give nothing. */
  lemma PickNone(pred: Json)
    ensures PickFirstBase64(pred).None? <==>
      && !HasB64(pred, "bytesBase64Encoded")
      && !HasB64(pred, "bytes_base64_encoded")
      && !NestedHasB64(pred)
      && !(HasImages(pred) && exists k :: 0 <= k < |pred.fields["images"].items| && HasB64(pred.fields["images"].items[k], "bytesBase64Encoded"))
  {
    if HasImages(pred) {
      var images := pred.fields["images"].items;
      if k :| 0 <= k < |images| && HasB64(images[k], "bytesBase64Encoded") {
        assert FirstImageFrom(images, 0).Some?;
      }
    }
  }

  // ---------------------------------------------------------------------
  // The request and its outcome
  // ---------------------------------------------------------------------

  /** The options of `generateImageWithVertex` that shape the request. */
  datatype ImageOpts = ImageOpts(projectId: string, location: string, model: string, prompt: string,
                                 aspectRatio: Option<string>, sampleCount: Option<real>)

  /** The HTTP exchange with the endpoint: a non-2xx status, or a 2xx
      status with a body that parsed as JSON. */
  datatype HttpOutcome = HttpFailed(status: int) | HttpOk(body: Json)

  /** `predictions` of the body when it is an array, else none. */
  function Predictions(body: Json): (r: seq<Json>)
    ensures body.JObj? && "predictions" in body.fields && body.fields["predictions"].JArr? ==> r == body.fields["predictions"].items
    ensures !(body.JObj? && "predictions" in body.fields && body.fields["predictions"].JArr?) ==> r == []
  {
    match Member(body, "predictions")
    case Some(JArr(items)) => items
    case _ => []
  }

  /** The first prediction's image, else the second one's when there is one. */
  function PickFromPredictions(preds: seq<Json>): (r: Option<Picked>)
    requires |preds| > 0
    ensures PickFirstBase64(preds[0]).Some? ==> r == PickFirstBase64(preds[0])
    ensures PickFirstBase64(preds[0]).None? && |preds| > 1 ==> r == PickFirstBase64(preds[1])
    ensures PickFirstBase64(preds[0]).None? && |preds| == 1 ==> r.None?
  {
    match PickFirstBase64(preds[0])
    case Some(p) => Some(p)
    case None => if |preds| > 1 then PickFirstBase64(preds[1]) else None
  }

  /** `(mimeType ?? '').toString().trim() || 'image/png'`. A member that is
      neither a string nor nullish is turned into text by `toText`. */
  function MimeTypeOf(m: Option<Json>, toText: Json -> string): (r: string)
    ensures r != ""
    ensures Nullish(m) ==> r == "image/png"
    ensures m.Some? && m.value.JStr? && Trim(m.value.s) != "" ==> r == Trim(m.value.s)
    ensures m.Some? && m.value.JStr? && Trim(m.value.s) == "" ==> r == "image/png"
  {
    var raw := if Nullish(m) then "" else if m.value.JStr? then m.value.s else toText(m.value);
    var t := Trim(raw);
    if t == "" then "image/png" else t
  }

  /** The body posted to `:predict`: one instance with the trimmed prompt,
      one sample and a 1:1 ratio unless the caller asks otherwise, and the
      safety settings. */
  function RequestBody(prompt: string, opts: ImageOpts): (j: Json)
    ensures j.JObj? && j.fields.Keys == {"instances", "parameters"}
    ensures j.fields["instances"] == JArr([JObj(map["prompt" := JStr(prompt)])])
    ensures var p := j.fields["parameters"];
      && p.JObj? && p.fields.Keys == {"sampleCount", "aspectRatio", "safetyFilterLevel", "personGeneration"}
      && p.fields["sampleCount"] == JNum(opts.sampleCount.GetOr(1.0))
      && p.fields["aspectRatio"] == JStr(opts.aspectRatio.GetOr("1:1"))
      && p.fields["safetyFilterLevel"] == JStr("BLOCK_MEDIUM_AND_ABOVE")
      && p.fields["personGeneration"] == JStr("DONT_ALLOW")
  {
    JObj(map[
      "instances" := JArr([JObj(map["prompt" := JStr(prompt)])]),
      "parameters" := JObj(map[
        "sampleCount" := JNum(opts.sampleCount.GetOr(1.0)),
        "aspectRatio" := JStr(opts.aspectRatio.GetOr("1:1")),
        "safetyFilterLevel" := JStr("BLOCK_MEDIUM_AND_ABOVE"),
        "personGeneration" := JStr("DONT_ALLOW")])])
  }

  /** The endpoint URL of the model. */
  function PredictUrl(opts: ImageOpts): string {
    "https://" + opts.location + "-aiplatform.googleapis.com/v1/projects/" + opts.projectId
    + "/locations/" + opts.location + "/publishers/google/models/" + opts.model + ":predict"
  }

  datatype ImageResult = ImageResult(bytes: seq<bv8>, mimeType: string)

  const Unavailable := "Illustrations unavailable"

  /** `(token?.token ?? '').toString().trim()`: the bearer token, blank when
      there is none. */
  function TokenText(accessToken: Option<string>): (r: string)
    ensures accessToken.None? ==> r == ""
    ensures accessToken.Some? ==> r == Trim(accessToken.value)
  {
    Trim(accessToken.GetOr(""))
  }

  /** What the handler makes of the endpoint's answer, in the source's
      order: a non-2xx status, no predictions, no usable image in the first
      two predictions, an empty decoded image, or the image with its
      content type. */
  predicate ReadsAs(outcome: HttpOutcome, decodeBase64: string -> seq<bv8>, toText: Json -> string,
                    r: Result<ImageResult, Thrown>) {
    && (outcome.HttpFailed? ==>
          r == Err(AppErr(NewAppError(502, "VERTEX_IMAGE_FAILED", Unavailable,
                                      Some("vertex_image_http_" + IntToString(outcome.status))))))
    && (outcome.HttpOk? && Predictions(outcome.body) == [] ==>
          r == Err(Fail(502, "VERTEX_IMAGE_EMPTY", Unavailable)))
    && (outcome.HttpOk? && Predictions(outcome.body) != [] ==>
          var picked := PickFromPredictions(Predictions(outcome.body));
          && (picked.None? ==> r == Err(Fail(502, "VERTEX_IMAGE_BAD_RESPONSE", Unavailable)))
          && (picked.Some? && decodeBase64(picked.value.b64) == [] ==>
                r == Err(Fail(502, "VERTEX_IMAGE_ZERO_BYTES", Unavailable)))
          && (picked.Some? && decodeBase64(picked.value.b64) != [] ==>
                r == Ok(ImageResult(decodeBase64(picked.value.b64), MimeTypeOf(picked.value.mimeType, toText)))))
  }

  /** `generateImageWithVertex`. `accessToken` is what the credentials
      client hands out (`None` for no token); `predict` is the POST to the
      endpoint with the bearer token and the body; `decodeBase64` is
      Node's base64 decoder; `toText` is `String(value)` for a non-string
      `mimeType`. The checks run in the source's order, and the network is
      reached only with a non-blank prompt and a non-blank token. */
  method GenerateImage(
    opts: ImageOpts, accessToken: Option<string>,
    predict: (string, string, Json) -> HttpOutcome,
    decodeBase64: string -> seq<bv8>, toText: Json -> string)
    returns (r: Result<ImageResult, Thrown>)
    ensures Trim(opts.prompt) == "" ==> r == Err(Fail(400, "IMAGE_PROMPT_EMPTY", "Invalid illustration prompt"))
    ensures Trim(opts.prompt) != "" && TokenText(accessToken) == "" ==>
      r == Err(Fail(503, "VERTEX_AUTH_FAILED", Unavailable))
    ensures Trim(opts.prompt) != "" && TokenText(accessToken) != "" ==>
      ReadsAs(predict(PredictUrl(opts), TokenText(accessToken), RequestBody(Trim(opts.prompt), opts)),
              decodeBase64, toText, r)
    ensures r.Ok? ==> |r.value.bytes| > 0 && r.value.mimeType != ""
  {
    var prompt := Trim(opts.prompt);
    if prompt == "" {
      return Err(Fail(400, "IMAGE_PROMPT_EMPTY", "Invalid illustration prompt"));
    }
    var token := TokenText(accessToken);
    if token == "" {
      return Err(Fail(503, "VERTEX_AUTH_FAILED", Unavailable));
    }
    var outcome := predict(PredictUrl(opts), token, RequestBody(prompt, opts));
    r := ReadImage(outcome, decodeBase64, toText);
  }

  /** The part of `generateImageWithVertex` after the POST returns. */
  method ReadImage(outcome: HttpOutcome, decodeBase64: string -> seq<bv8>, toText: Json -> string)
    returns (r: Result<ImageResult, Thrown>)
    ensures ReadsAs(outcome, decodeBase64, toText, r)
    ensures r.Ok? ==> |r.value.bytes| > 0 && r.value.mimeType != ""
  {
    if outcome.HttpFailed? {
      return Err(AppErr(NewAppError(502, "VERTEX_IMAGE_FAILED", Unavailable,
                                    Some("vertex_image_http_" + IntToString(outcome.status)))));
    }

    var preds := Predictions(outcome.body);
    if |preds| == 0 {
      return Err(Fail(502, "VERTEX_IMAGE_EMPTY", Unavailable));
    }

    var picked := PickFromPredictions(preds);
    if picked.None? {
      return Err(Fail(502, "VERTEX_IMAGE_BAD_RESPONSE", Unavailable));
    }

    var bytes := decodeBase64(picked.value.b64);
    if |bytes| == 0 {
      return Err(Fail(502, "VERTEX_IMAGE_ZERO_BYTES", Unavailable));
    }

    return Ok(ImageResult(bytes, MimeTypeOf(picked.value.mimeType, toText)));
  }
}
