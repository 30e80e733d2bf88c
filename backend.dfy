/**
 * The request and answer logic of the image-analysis backend: data-URL
 * stripping, the single-turn vision request, the reading of the model's
 * reply, the description fallback text and the status codes of the four
 * POST endpoints.
 *
 * Image codecs, base64, the prompt templates and the vision service are
 * opaque: they are function-valued parameters. The service's answer to a
 * request is either the text of `choices[0].message.content` or the
 * exception raised while obtaining it.
 */
module Backend {
  import opened Wrappers
  import opened Text
  import opened Bytes

  /** A decoded pixel buffer; only its size is observed by the logic modelled here. */
  datatype Image = Image(width: nat, height: nat)

  /** What `cv2.imdecode` makes of a byte buffer: an image, `None`, or an exception. */
  datatype Decoded = Pixels(image: Image) | NotAnImage | DecodeRaised(message: string)

  /**
   * The library codecs: OpenCV decoding, base64 decoding, and PIL's JPEG
   * re-encoding followed by base64. The encoder may raise (libjpeg refuses
   * images wider or taller than 65500 pixels); `Err` carries the message.
   */
  datatype Codec = Codec(
    imdecode: seq<byte> -> Decoded,
    b64decode: string -> Result<seq<byte>, string>,
    jpegBase64: Image -> Result<string, string>)

  /** The prompt templates of the prompts module, keyed by organ or entity name. */
  datatype Prompts = Prompts(navigation: string -> string, diagnostic: string -> string)

  // ---------------------------------------------------------------------
  // Data-URL prefix stripping (decode_image)
  // ---------------------------------------------------------------------

  const Base64Marker := "base64,"

  /**
   * `s.split("base64,")[1]` when the marker occurs, `s` otherwise: the text
   * after the first marker, up to the next marker or the end of `s`.
   */
  function StripDataUrlPrefix(s: string): (r: string)
    ensures !Contains(s, Base64Marker) ==> r == s
    ensures Contains(s, Base64Marker) ==>
      var start := Find(s, Base64Marker).value + |Base64Marker|;
      start + |r| <= |s| && r == s[start..start + |r|] &&
      (forall k :: start <= k < start + |r| ==> !OccursAt(s, Base64Marker, k)) &&
      (start + |r| == |s| || OccursAt(s, Base64Marker, start + |r|))
  {
    match Find(s, Base64Marker)
    case None => s
    case Some(i) =>
      match FindFrom(s, Base64Marker, i + |Base64Marker|)
      case None => s[i + |Base64Marker|..]
      case Some(j) => s[i + |Base64Marker|..j]
  }

  /**
   * A data-URL header is dropped: when neither the header nor the payload
   * contains a comma (the base64 alphabet has none), the prefixed and the
   * bare payload strip to the same string.
   */
  lemma {:induction false} StripDataUrlHeader(header: string, payload: string)
    requires forall i :: 0 <= i < |header| ==> header[i] != ','
    requires forall i :: 0 <= i < |payload| ==> payload[i] != ','
    ensures StripDataUrlPrefix(header + Base64Marker + payload) == payload
    ensures StripDataUrlPrefix(payload) == payload
  {
    var m := Base64Marker;
    var s := header + m + payload;
    var n := |header|;
    forall j: nat | j < n ensures !OccursAt(s, m, j) {
      assert s[j + 6] != ',' by {
        if j + 6 < n {
          assert s[j + 6] == header[j + 6];
        } else {
          assert s[j + 6] == m[j + 6 - n];
        }
      }
      assert s[j..j + 7][6] == s[j + 6];
    }
    assert s[n..n + 7] == m;
    assert OccursAt(s, m, n);
    assert Find(s, m) == Some(n);
    forall k: nat | n + 7 <= k ensures !OccursAt(s, m, k) {
      if k + 7 <= |s| {
        assert s[k + 6] == payload[k + 6 - n - 7];
        assert s[k..k + 7][6] == s[k + 6];
      }
    }
    assert FindFrom(s, m, n + 7).None?;
    assert s[n + 7..] == payload;
    forall k: nat ensures !OccursAt(payload, m, k) {
      if k + 7 <= |payload| {
        assert payload[k..k + 7][6] == payload[k + 6];
      }
    }
  }

  // ---------------------------------------------------------------------
  // The vision request
  // ---------------------------------------------------------------------

  const ModelId := "claude-3-sonnet-20240229"
  const JpegDataUrlPrefix := "data:image/jpeg;base64,"
  const IdentifyMaxTokens := 10
  const LongMaxTokens := 4096

  datatype Part = TextPart(text: string) | ImageUrlPart(url: string)
  datatype Turn = Turn(role: string, content: seq<Part>)
  /** The request body handed to the client: model id, messages and `max_tokens`. */
  datatype Payload = Payload(model: string, messages: seq<Turn>, maxTokens: nat)

  /** What one request carries: the instruction, the JPEG image in base64 and the token budget. */
  datatype VisionQuery = VisionQuery(instruction: string, jpegBase64: string, maxTokens: nat)

  /** The external model: what the client returns, or raises, for a request. */
  datatype Reply = Answer(content: string) | Failure(message: string)

  /** The single-turn request every endpoint sends: one user turn with a text part, then an image part. */
  function BuildPayload(q: VisionQuery): Payload {
    Payload(ModelId,
      [Turn("user", [TextPart(q.instruction), ImageUrlPart(JpegDataUrlPrefix + q.jpegBase64)])],
      q.maxTokens)
  }

  /** Reads a request back: defined exactly on the single-turn shape with a JPEG data URL. */
  function ReadPayload(p: Payload): Option<VisionQuery> {
    if p.model == ModelId && |p.messages| == 1 && p.messages[0].role == "user"
      && |p.messages[0].content| == 2
      && p.messages[0].content[0].TextPart? && p.messages[0].content[1].ImageUrlPart?
      && |JpegDataUrlPrefix| <= |p.messages[0].content[1].url|
      && p.messages[0].content[1].url[..|JpegDataUrlPrefix|] == JpegDataUrlPrefix
    then
      Some(VisionQuery(p.messages[0].content[0].text,
        p.messages[0].content[1].url[|JpegDataUrlPrefix|..], p.maxTokens))
    else None
  }

  /** Building then reading a request gives back the query. */
  lemma ReadBuildPayload(q: VisionQuery)
    ensures ReadPayload(BuildPayload(q)) == Some(q)
  {
    var url := JpegDataUrlPrefix + q.jpegBase64;
    assert url[..|JpegDataUrlPrefix|] == JpegDataUrlPrefix;
    assert url[|JpegDataUrlPrefix|..] == q.jpegBase64;
  }

  /** Every request that reads as a query is the one built from it. */
  lemma BuildReadPayload(p: Payload)
    requires ReadPayload(p).Some?
    ensures BuildPayload(ReadPayload(p).value) == p
  {
    var url := p.messages[0].content[1].url;
    assert url == JpegDataUrlPrefix + url[|JpegDataUrlPrefix|..];
    assert p.messages[0].content == [p.messages[0].content[0], p.messages[0].content[1]];
    assert p.messages == [p.messages[0]];
  }

  function IdentifyPrompt(entity: string): string {
    "Is there a " + entity + " in this image? Please respond with only 'true' or 'false'."
  }

  /** identify_entity_in_image's request for an image encoded as `jpeg`: the yes/no question about the entity, 10 tokens. */
  function IdentifyPayload(jpeg: string, entity: string): (p: Payload)
    ensures ReadPayload(p) == Some(VisionQuery(IdentifyPrompt(entity), jpeg, IdentifyMaxTokens))
  {
    ReadBuildPayload(VisionQuery(IdentifyPrompt(entity), jpeg, IdentifyMaxTokens));
    BuildPayload(VisionQuery(IdentifyPrompt(entity), jpeg, IdentifyMaxTokens))
  }

  /** The /navigate request: the navigation prompt for the entity, 4096 tokens. */
  function NavigatePayload(prompts: Prompts, jpeg: string, entity: string): (p: Payload)
    ensures ReadPayload(p) == Some(VisionQuery(prompts.navigation(entity), jpeg, LongMaxTokens))
  {
    ReadBuildPayload(VisionQuery(prompts.navigation(entity), jpeg, LongMaxTokens));
    BuildPayload(VisionQuery(prompts.navigation(entity), jpeg, LongMaxTokens))
  }

  /** The /describe request: the diagnostic prompt for the organ, 4096 tokens. */
  function DescribePayload(prompts: Prompts, jpeg: string, organ: string): (p: Payload)
    ensures ReadPayload(p) == Some(VisionQuery(prompts.diagnostic(organ), jpeg, LongMaxTokens))
  {
    ReadBuildPayload(VisionQuery(prompts.diagnostic(organ), jpeg, LongMaxTokens));
    BuildPayload(VisionQuery(prompts.diagnostic(organ), jpeg, LongMaxTokens))
  }

  // ---------------------------------------------------------------------
  // Reading the identification answer
  // ---------------------------------------------------------------------

  /** The answer's verdict: "true" first, then "false", otherwise not found. */
  function FoundInAnswer(text: string): (found: bool)
    ensures found <==> Contains(Lower(text), "true")
  {
    var lowered := Lower(text);
    if Contains(lowered, "true") then true
    else if Contains(lowered, "false") then false
    else false
  }

  /** The verdict ignores letter case. */
  lemma FoundInAnswerIgnoresCase(text: string)
    ensures FoundInAnswer(text) == FoundInAnswer(Lower(text))
  {
    LowerIdempotent(text);
  }

  /** Substring matching: a negated answer such as "Not true" still reads as found. */
  lemma NegatedAnswerReadsAsFound()
    ensures FoundInAnswer("Not true")
    ensures !FoundInAnswer("False")
  {
    var t := Lower("Not true");
    assert t == "not true";
    assert t[4..8] == "true";
    assert OccursAt(t, "true", 4);
    var f := Lower("False");
    assert f == "false";
    assert f[0..4][0] == 'f' && f[1..5][0] == 'a';
    assert !OccursAt(f, "true", 0) && !OccursAt(f, "true", 1);
  }

  /**
   * identify_entity_in_image: the JPEG encoding comes before its `try`, so
   * an encoder error escapes; a failure of the service becomes "not found"
   * and never escapes.
   */
  function IdentifyEntity(codec: Codec, service: Payload -> Reply, image: Image, entity: string): (r: Outcome<bool>)
    ensures codec.jpegBase64(image).Err? ==> r == Raises(ErrorRaised(codec.jpegBase64(image).error))
    ensures codec.jpegBase64(image).Ok? ==> r.Returns? && (r.value <==>
      var reply := service(IdentifyPayload(codec.jpegBase64(image).value, entity));
      reply.Answer? && Contains(Lower(reply.content), "true"))
  {
    match codec.jpegBase64(image)
    case Err(message) => Raises(ErrorRaised(message))
    case Ok(jpeg) =>
      match service(IdentifyPayload(jpeg, entity))
      case Failure(_) => Returns(false)
      case Answer(text) => Returns(FoundInAnswer(text))
  }

  // ---------------------------------------------------------------------
  // The description fallback
  // ---------------------------------------------------------------------

  const FallbackLead := "Error generating AI description. Basic info: "
  const FallbackTail := " image."

  /** generate_description's text when the service fails: width, then height. */
  function DescriptionFallback(width: nat, height: nat): string {
    FallbackLead + NatToString(width) + "x" + NatToString(height) + FallbackTail
  }

  /** Reads the image size back out of a fallback text. */
  function ReadFallbackSize(s: string): Option<(nat, nat)> {
    if |FallbackLead| + |FallbackTail| <= |s| && s[..|FallbackLead|] == FallbackLead
      && s[|s| - |FallbackTail|..] == FallbackTail
    then
      var middle := s[|FallbackLead|..|s| - |FallbackTail|];
      match Find(middle, "x")
      case None => None
      case Some(k) =>
        match (ParseNat(middle[..k]), ParseNat(middle[k + 1..]))
        case (Some(w), Some(h)) => Some((w, h))
        case _ => None
    else None
  }

  /** The fallback names the width first and the height second, and nothing is lost. */
  lemma {:induction false} FallbackNamesWidthThenHeight(width: nat, height: nat)
    ensures ReadFallbackSize(DescriptionFallback(width, height)) == Some((width, height))
  {
    var w, h := NatToString(width), NatToString(height);
    var s := DescriptionFallback(width, height);
    var middle := w + "x" + h;
    assert s == FallbackLead + middle + FallbackTail;
    assert s[..|FallbackLead|] == FallbackLead;
    assert s[|s| - |FallbackTail|..] == FallbackTail;
    assert s[|FallbackLead|..|s| - |FallbackTail|] == middle;
    forall j: nat | j < |w| ensures !OccursAt(middle, "x", j) {
      assert middle[j] == w[j];
      assert IsDigit(w[j]);
      assert middle[j..j + 1][0] == middle[j];
    }
    assert middle[|w|..|w| + 1] == "x";
    assert OccursAt(middle, "x", |w|);
    assert Find(middle, "x") == Some(|w|);
    assert middle[..|w|] == w;
    assert middle[|w| + 1..] == h;
    ParseNatToString(width);
    ParseNatToString(height);
  }

  // ---------------------------------------------------------------------
  // Endpoints and status codes
  // ---------------------------------------------------------------------

  const ImageRequired := "Image data is required"
  const InvalidImageFormat := "Invalid image format"

  /** An exception inside a handler: an `HTTPException` with its status, or any other error. */
  datatype Raised = HttpRaised(status: nat, detail: string) | ErrorRaised(message: string)

  /** `str(e)`: an `HTTPException` prints as "<status>: <detail>". */
  function Str(e: Raised): string {
    match e
    case HttpRaised(status, detail) => NatToString(status) + ": " + detail
    case ErrorRaised(message) => message
  }

  /** The detail of a 500 that caught an explicit 400. */
  lemma StrOf400(detail: string)
    ensures Str(HttpRaised(400, detail)) == "400: " + detail
  {
    assert NatToString(400) == "400" by {
      assert NatToString(40) == "40" by { assert NatToString(4) == "4"; }
    }
  }

  /** What the body of a handler's `try` does: return a value or raise. */
  datatype Outcome<+T> = Returns(value: T) | Raises(exception: Raised)

  /** What the client receives: a JSON body with status 200, or an error status with a detail. */
  datatype Response<+T> = Success(body: T) | HttpError(status: nat, detail: string)

  /** Every handler's `except Exception as e: raise HTTPException(status_code=500, detail=str(e))`. */
  function CatchAll<T>(o: Outcome<T>): Response<T> {
    match o
    case Returns(v) => Success(v)
    case Raises(e) => HttpError(500, Str(e))
  }

  /** decode_image: strips the data-URL prefix, decodes base64, then the image; its own failures are 400. */
  function DecodeImage(codec: Codec, s: string): (r: Outcome<Option<Image>>)
    ensures r.Raises? ==> r.exception.HttpRaised? && r.exception.status == 400
    ensures r.Returns? <==>
      codec.b64decode(StripDataUrlPrefix(s)).Ok? &&
      !codec.imdecode(codec.b64decode(StripDataUrlPrefix(s)).value).DecodeRaised?
    ensures codec.b64decode(StripDataUrlPrefix(s)).Err? ==>
      r == Raises(HttpRaised(400, InvalidImageFormat + ": " + codec.b64decode(StripDataUrlPrefix(s)).error))
    ensures codec.b64decode(StripDataUrlPrefix(s)).Ok? ==>
      match codec.imdecode(codec.b64decode(StripDataUrlPrefix(s)).value)
      case Pixels(image) => r == Returns(Some(image))
      case NotAnImage => r == Returns(None)
      case DecodeRaised(message) => r == Raises(HttpRaised(400, InvalidImageFormat + ": " + message))
  {
    match codec.b64decode(StripDataUrlPrefix(s))
    case Err(message) => Raises(HttpRaised(400, InvalidImageFormat + ": " + message))
    case Ok(bytes) =>
      match codec.imdecode(bytes)
      case Pixels(image) => Returns(Some(image))
      case NotAnImage => Returns(None)
      case DecodeRaised(message) => Raises(HttpRaised(400, InvalidImageFormat + ": " + message))
  }

  /** A data-URL header does not change what decode_image produces. */
  lemma DecodeImageIgnoresHeader(codec: Codec, header: string, payload: string)
    requires forall i :: 0 <= i < |header| ==> header[i] != ','
    requires forall i :: 0 <= i < |payload| ==> payload[i] != ','
    ensures DecodeImage(codec, header + Base64Marker + payload) == DecodeImage(codec, payload)
  {
    StripDataUrlHeader(header, payload);
  }

  /** The `{"found": ..., "entity": ...}` body. */
  datatype IdentifyBody = IdentifyBody(found: bool, entity: string)
  /** The `{"response": ...}` body of /navigate. */
  datatype NavigateBody = NavigateBody(response: string)
  /** The `{"description": ...}` body of /describe. */
  datatype DescribeBody = DescribeBody(description: string)

  /** The JSON request of /identify_base64; `image` may be absent. */
  datatype IdentifyRequest = IdentifyRequest(entityName: string, image: Option<string>)

  /** The multipart decode shared by /identify, /navigate and /describe. */
  function DecodeUpload(codec: Codec, content: seq<byte>): Outcome<Image> {
    match codec.imdecode(content)
    case Pixels(image) => Returns(image)
    case NotAnImage => Raises(HttpRaised(400, InvalidImageFormat))
    case DecodeRaised(message) => Raises(ErrorRaised(message))
  }

  /** POST /identify. */
  function IdentifyUpload(codec: Codec, service: Payload -> Reply, entityName: string, content: seq<byte>)
    : (r: Response<IdentifyBody>)
    ensures r.HttpError? ==> r.status == 500
    ensures r.Success? <==> codec.imdecode(content).Pixels? && codec.jpegBase64(codec.imdecode(content).image).Ok?
    ensures codec.imdecode(content).Pixels? && codec.jpegBase64(codec.imdecode(content).image).Err? ==>
      r == HttpError(500, codec.jpegBase64(codec.imdecode(content).image).error)
    ensures codec.imdecode(content).DecodeRaised? ==> r == HttpError(500, codec.imdecode(content).message)
    ensures r.Success? ==>
      r.body == IdentifyBody(IdentifyEntity(codec, service, codec.imdecode(content).image, entityName).value, entityName)
  {
    CatchAll(
      match DecodeUpload(codec, content)
      case Raises(e) => Raises(e)
      case Returns(image) => Identified(codec, service, image, entityName))
  }

  /** The `try` body after decoding: the verdict and the name echoed, or the encoder's error. */
  function Identified(codec: Codec, service: Payload -> Reply, image: Image, entityName: string)
    : Outcome<IdentifyBody>
  {
    match IdentifyEntity(codec, service, image, entityName)
    case Raises(e) => Raises(e)
    case Returns(found) => Returns(IdentifyBody(found, entityName))
  }

  /** POST /identify_base64. */
  function IdentifyBase64(codec: Codec, service: Payload -> Reply, request: IdentifyRequest)
    : (r: Response<IdentifyBody>)
    ensures r.HttpError? ==> r.status == 500
    ensures (request.image.None? || request.image == Some("")) ==> r == HttpError(500, "400: " + ImageRequired)
    ensures r.Success? <==>
      request.image.Some? && request.image.value != "" &&
      DecodeImage(codec, request.image.value).Returns? &&
      DecodeImage(codec, request.image.value).value.Some? &&
      codec.jpegBase64(DecodeImage(codec, request.image.value).value.value).Ok?
    ensures request.image.Some? && request.image.value != "" ==>
      var decoded := DecodeImage(codec, request.image.value);
      (decoded.Raises? ==> r == HttpError(500, Str(decoded.exception))) &&
      (decoded == Returns(None) ==> r == HttpError(500, "400: " + InvalidImageFormat)) &&
      (decoded.Returns? && decoded.value.Some? ==>
        var image := decoded.value.value;
        (codec.jpegBase64(image).Err? ==> r == HttpError(500, codec.jpegBase64(image).error)) &&
        (codec.jpegBase64(image).Ok? ==>
          r == Success(IdentifyBody(IdentifyEntity(codec, service, image, request.entityName).value, request.entityName))))
  {
    StrOf400(ImageRequired);
    StrOf400(InvalidImageFormat);
    CatchAll(
      if request.image.None? || request.image.value == "" then
        Raises(HttpRaised(400, ImageRequired))
      else
        match DecodeImage(codec, request.image.value)
        case Raises(e) => Raises(e)
        case Returns(None) => Raises(HttpRaised(400, InvalidImageFormat))
        case Returns(Some(image)) => Identified(codec, service, image, request.entityName))
  }

  /** POST /navigate: the service's text verbatim; a service failure is a 500. */
  function Navigate(codec: Codec, service: Payload -> Reply, prompts: Prompts, entityName: string, content: seq<byte>)
    : (r: Response<NavigateBody>)
    ensures r.HttpError? ==> r.status == 500
    ensures r.Success? <==>
      codec.imdecode(content).Pixels? && codec.jpegBase64(codec.imdecode(content).image).Ok? &&
      service(NavigatePayload(prompts, codec.jpegBase64(codec.imdecode(content).image).value, entityName)).Answer?
    ensures codec.imdecode(content).Pixels? && codec.jpegBase64(codec.imdecode(content).image).Err? ==>
      r == HttpError(500, codec.jpegBase64(codec.imdecode(content).image).error)
    ensures codec.imdecode(content).DecodeRaised? ==> r == HttpError(500, codec.imdecode(content).message)
    ensures codec.imdecode(content).Pixels? && codec.jpegBase64(codec.imdecode(content).image).Ok? ==>
      var reply := service(NavigatePayload(prompts, codec.jpegBase64(codec.imdecode(content).image).value, entityName));
      reply.Failure? ==> r == HttpError(500, reply.message)
    ensures r.Success? ==>
      r.body.response ==
        service(NavigatePayload(prompts, codec.jpegBase64(codec.imdecode(content).image).value, entityName)).content
  {
    CatchAll(
      match DecodeUpload(codec, content)
      case Raises(e) => Raises(e)
      case Returns(image) =>
        match codec.jpegBase64(image)
        case Err(message) => Raises(ErrorRaised(message))
        case Ok(jpeg) =>
          match service(NavigatePayload(prompts, jpeg, entityName))
          case Failure(message) => Raises(ErrorRaised(message))
          case Answer(text) => Returns(NavigateBody(text)))
  }

  /** POST /describe: the service's text verbatim; a service failure is a 500. */
  function Describe(codec: Codec, service: Payload -> Reply, prompts: Prompts, targetOrgan: string, content: seq<byte>)
    : (r: Response<DescribeBody>)
    ensures r.HttpError? ==> r.status == 500
    ensures r.Success? <==>
      codec.imdecode(content).Pixels? && codec.jpegBase64(codec.imdecode(content).image).Ok? &&
      service(DescribePayload(prompts, codec.jpegBase64(codec.imdecode(content).image).value, targetOrgan)).Answer?
    ensures codec.imdecode(content).Pixels? && codec.jpegBase64(codec.imdecode(content).image).Err? ==>
      r == HttpError(500, codec.jpegBase64(codec.imdecode(content).image).error)
    ensures codec.imdecode(content).DecodeRaised? ==> r == HttpError(500, codec.imdecode(content).message)
    ensures codec.imdecode(content).Pixels? && codec.jpegBase64(codec.imdecode(content).image).Ok? ==>
      var reply := service(DescribePayload(prompts, codec.jpegBase64(codec.imdecode(content).image).value, targetOrgan));
      reply.Failure? ==> r == HttpError(500, reply.message)
    ensures r.Success? ==>
      r.body.description ==
        service(DescribePayload(prompts, codec.jpegBase64(codec.imdecode(content).image).value, targetOrgan)).content
  {
    CatchAll(
      match DecodeUpload(codec, content)
      case Raises(e) => Raises(e)
      case Returns(image) =>
        match codec.jpegBase64(image)
        case Err(message) => Raises(ErrorRaised(message))
        case Ok(jpeg) =>
          match service(DescribePayload(prompts, jpeg, targetOrgan))
          case Failure(message) => Raises(ErrorRaised(message))
          case Answer(text) => Returns(DescribeBody(text)))
  }

  /** An undecodable upload is reported as a 500 whose detail carries the swallowed 400. */
  lemma UndecodableUploadIsServerError(codec: Codec, service: Payload -> Reply, prompts: Prompts,
                                       name: string, content: seq<byte>)
    requires codec.imdecode(content) == NotAnImage
    ensures IdentifyUpload(codec, service, name, content) == HttpError(500, "400: " + InvalidImageFormat)
    ensures Navigate(codec, service, prompts, name, content) == HttpError(500, "400: " + InvalidImageFormat)
    ensures Describe(codec, service, prompts, name, content) == HttpError(500, "400: " + InvalidImageFormat)
  {
    StrOf400(InvalidImageFormat);
  }

  /** A failing service never fails /identify: the entity is simply reported as not found. */
  lemma ServiceFailureIsNotFound(codec: Codec, service: Payload -> Reply, name: string, content: seq<byte>)
    requires codec.imdecode(content).Pixels? && codec.jpegBase64(codec.imdecode(content).image).Ok?
    requires service(IdentifyPayload(codec.jpegBase64(codec.imdecode(content).image).value, name)).Failure?
    ensures IdentifyUpload(codec, service, name, content) == Success(IdentifyBody(false, name))
  {
  }

  /**
   * An image the JPEG encoder refuses is a 500 whose detail is the encoder's
   * message, on all four endpoints; for /identify it escapes
   * identify_entity_in_image, whose `try` covers only the service call.
   */
  lemma UnencodableImageIsServerError(codec: Codec, service: Payload -> Reply, prompts: Prompts,
                                      name: string, content: seq<byte>, encoded: string)
    requires codec.imdecode(content).Pixels? && codec.jpegBase64(codec.imdecode(content).image).Err?
    requires encoded != "" && DecodeImage(codec, encoded) == Returns(Some(codec.imdecode(content).image))
    ensures var message := codec.jpegBase64(codec.imdecode(content).image).error;
      IdentifyUpload(codec, service, name, content) == HttpError(500, message) &&
      IdentifyBase64(codec, service, IdentifyRequest(name, Some(encoded))) == HttpError(500, message) &&
      Navigate(codec, service, prompts, name, content) == HttpError(500, message) &&
      Describe(codec, service, prompts, name, content) == HttpError(500, message)
  {
  }
}
