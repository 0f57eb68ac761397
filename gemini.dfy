/** The Gemini adapter (src/providers/gemini.go): every text and image part of
    every message is flattened into one content entry, images are resolved to
    inline base64 data, and the candidates of the reply are renumbered into
    choices. */
module Gemini {
  import opened Wrappers
  import opened Strings
  import opened Models
  import opened Errors
  import opened Wire

  const DefaultModel := "gemini-2.5-flash"
  const DefaultMaxOutputTokens := 2048
  /** The Content-Type assumed for a downloaded image that declares none. */
  const DefaultImageType := "image/jpeg"
  const ResponseObject := "chat.completion"
  /** The text given to a choice cut off by the token limit with no content. */
  const TruncationNotice :=
    "The response was terminated early due to the 'max_tokens' limit. Please try increasing the max_tokens parameter."

  function EffectiveModel(req: ChatRequest): string {
    if req.model != "" then req.model else DefaultModel
  }

  // ---------------------------------------------------------------------------
  // Image resolution

  /** The checks of downloadImageToBase64 on what the GET returned, giving
      (base64 data, mime type). The download and the base64 encoding are
      outside the model: `fetch.body` is the already-encoded body. */
  function DownloadImage(fetch: ImageFetch): (r: Result<(string, string), Error>)
    ensures r.Success? <==>
      fetch.Fetched? && fetch.status == StatusOK && fetch.body.Some?
      && (fetch.contentType == "" || HasPrefix(fetch.contentType, "image/"))
    ensures r.Success? ==>
      && r.value.0 == fetch.body.value
      && r.value.1 == (if fetch.contentType == "" then "image/jpeg" else fetch.contentType)
      && HasPrefix(r.value.1, "image/")
    ensures fetch.Fetched? && fetch.status != StatusOK ==> r == Failure(ImageHttpStatus(fetch.status))
    ensures (fetch.Fetched? && fetch.status == StatusOK && fetch.body.Some?
             && fetch.contentType != "" && !HasPrefix(fetch.contentType, "image/")) ==>
      r == Failure(NotAnImage(fetch.contentType))
  {
    match fetch
    case FetchFailed(reason) => Failure(ImageFetchFailed(reason))
    case Fetched(status, contentType, body) =>
      if status != StatusOK then Failure(ImageHttpStatus(status))
      else if body.None? then Failure(ImageReadFailed)
      else
        var mimeType := if contentType == "" then DefaultImageType else contentType;
        if !HasPrefix(mimeType, "image/") then Failure(NotAnImage(mimeType))
        else Success((body.value, mimeType))
  }

  /** The split of a `data:` URI at its first comma, giving (data, mime type):
      the data is everything after the comma, the mime type the header with
      `data:` and `;base64` trimmed off. This is part of RFC 2397 section 3's
      `data:[<mediatype>][;base64],<data>`; nothing checks the header's form. */
  function ParseDataURI(uri: string): (r: Result<(string, string), Error>)
    ensures r.Failure? <==> ',' !in uri
    ensures r.Failure? ==> r.error == InvalidDataURI
    ensures r.Success? ==> exists k :: (0 <= k < |uri| && uri[k] == ',' && ',' !in uri[..k]
      && r.value.0 == uri[k + 1..] && r.value.1 == TrimSuffix(TrimPrefix(uri[..k], "data:"), ";base64"))
  {
    match IndexOf(uri, ',')
    case None => Failure(InvalidDataURI)
    case Some(k) => Success((uri[k + 1..], TrimSuffix(TrimPrefix(uri[..k], "data:"), ";base64")))
  }

  /** Writing a mime type and data into a base64 data URI and parsing it back
      gives back both, for any data (commas included) and any mime type
      without a comma. */
  lemma DataURIRoundTrip(mimeType: string, data: string)
    requires ',' !in mimeType
    ensures ParseDataURI("data:" + mimeType + ";base64," + data) == Success((data, mimeType))
  {
    var header := "data:" + mimeType + ";base64";
    var uri := header + "," + data;
    assert uri == "data:" + mimeType + ";base64," + data;
    assert ',' !in header by {
      forall i | 0 <= i < |header| ensures header[i] != ',' {
        if 5 <= i < 5 + |mimeType| { assert header[i] == mimeType[i - 5]; }
      }
    }
    var k := |header|;
    assert uri[k] == ',';
    match IndexOf(uri, ',')
    case Some(m) =>
      assert m == k;
      assert uri[..k] == header;
      assert uri[k + 1..] == data;
      assert HasPrefix(header, "data:");
      assert TrimPrefix(header, "data:") == mimeType + ";base64";
      assert HasSuffix(mimeType + ";base64", ";base64");
  }

  /** The branches of ChatCompletion on an image reference: a `data:image/`
      URI is split, an http(s) URL downloaded, anything else refused. */
  function ResolveImage(url: string, fetchImage: string -> ImageFetch): Result<(string, string), Error> {
    if HasPrefix(url, "data:image/") then ParseDataURI(url)
    else if HasPrefix(url, "http://") || HasPrefix(url, "https://") then
      match DownloadImage(fetchImage(url))
      case Failure(e) => Failure(ImageDownloadFailed(e))
      case Success(image) => Success(image)
    else Failure(UnsupportedImageURL(url))
  }

  method ResolveImageURL(url: string, fetchImage: string -> ImageFetch) returns (r: Result<(string, string), Error>)
    ensures r == ResolveImage(url, fetchImage)
  {
    if HasPrefix(url, "data:image/") {
      r := ParseDataURI(url);
    } else if HasPrefix(url, "http://") || HasPrefix(url, "https://") {
      var downloaded := DownloadImage(fetchImage(url));
      if downloaded.Failure? {
        return Failure(ImageDownloadFailed(downloaded.error));
      }
      r := Success(downloaded.value);
    } else {
      r := Failure(UnsupportedImageURL(url));
    }
  }

  // ---------------------------------------------------------------------------
  // Request translation

  /** The Gemini parts for one content part: a text part as text; an image
      part resolved, and kept as inline data only when both its data and mime
      type are non-empty; anything else dropped. */
  function PartOf(p: ContentPart, fetchImage: string -> ImageFetch): Result<seq<GeminiPart>, Error> {
    if p.typ == "text" then Success([GeminiText(p.text)])
    else if p.typ == "image_url" && p.imageURL.Some? then
      match ResolveImage(p.imageURL.value.url, fetchImage)
      case Failure(e) => Failure(e)
      case Success(image) =>
        if image.0 != "" && image.1 != "" then Success([InlineData(image.1, image.0)]) else Success([])
    else Success([])
  }

  /** The Gemini parts for a sequence of content parts, in order; the first
      part that cannot be resolved fails the whole. */
  function PartsOf(ps: seq<ContentPart>, fetchImage: string -> ImageFetch): Result<seq<GeminiPart>, Error>
    decreases |ps|
  {
    if ps == [] then Success([])
    else match PartsOf(ps[..|ps| - 1], fetchImage)
      case Failure(e) => Failure(e)
      case Success(done) =>
        match PartOf(ps[|ps| - 1], fetchImage)
        case Failure(e) => Failure(e)
        case Success(more) => Success(done + more)
  }

  /** The content parts of all messages, in order, with the roles dropped. */
  function AllParts(ms: seq<ChatMessage>): seq<ContentPart>
    decreases |ms|
  {
    if ms == [] then [] else AllParts(ms[..|ms| - 1]) + ms[|ms| - 1].content
  }

  lemma {:induction false} AllPartsAppend(a: seq<ChatMessage>, b: seq<ChatMessage>)
    ensures AllParts(a + b) == AllParts(a) + AllParts(b)
    decreases |b|
  {
    if b == [] {
      assert a + b == a;
    } else {
      assert (a + b)[..|a + b| - 1] == a + b[..|b| - 1];
      AllPartsAppend(a, b[..|b| - 1]);
    }
  }

  /** Once a prefix fails, whatever follows cannot change the error. */
  lemma {:induction false} FailureIsFinal(a: seq<ContentPart>, b: seq<ContentPart>, fetchImage: string -> ImageFetch)
    requires PartsOf(a, fetchImage).Failure?
    ensures PartsOf(a + b, fetchImage) == PartsOf(a, fetchImage)
    decreases |b|
  {
    if b == [] {
      assert a + b == a;
    } else {
      assert (a + b)[..|a + b| - 1] == a + b[..|b| - 1];
      FailureIsFinal(a, b[..|b| - 1], fetchImage);
    }
  }

  /** The parts of a concatenation after a prefix that succeeds: the second
      half's error, or the two halves' parts in order. */
  lemma {:induction false} PartsOfAppend(a: seq<ContentPart>, b: seq<ContentPart>, fetchImage: string -> ImageFetch)
    requires PartsOf(a, fetchImage).Success?
    ensures PartsOf(a + b, fetchImage) ==
      match PartsOf(b, fetchImage)
      case Failure(e) => Failure(e)
      case Success(more) => Success(PartsOf(a, fetchImage).value + more)
    decreases |b|
  {
    if b == [] {
      assert a + b == a;
      assert PartsOf(a, fetchImage).value + [] == PartsOf(a, fetchImage).value;
    } else {
      var b' := b[..|b| - 1];
      assert (a + b)[..|a + b| - 1] == a + b';
      assert (a + b)[|a + b| - 1] == b[|b| - 1];
      PartsOfAppend(a, b', fetchImage);
      match PartsOf(b', fetchImage)
      case Failure(e) =>
      case Success(done) =>
        match PartOf(b[|b| - 1], fetchImage)
        case Failure(e) =>
        case Success(more) =>
          assert PartsOf(a, fetchImage).value + done + more == PartsOf(a, fetchImage).value + (done + more);
    }
  }

  /** The generation configuration: `maxOutputTokens` is always present,
      the requested limit or 2048; `temperature` only when requested. */
  function GenerationConfig(req: ChatRequest): (config: map<string, Scalar>)
    ensures "maxOutputTokens" in config
    ensures config["maxOutputTokens"] == Int(if req.maxTokens.Some? then req.maxTokens.value else 2048)
    ensures "temperature" in config <==> req.temperature.Some?
    ensures req.temperature.Some? ==> config["temperature"] == Float(req.temperature.value)
    ensures config.Keys <= {"temperature", "maxOutputTokens"}
  {
    var withTemperature: map<string, Scalar> :=
      if req.temperature.Some? then map["temperature" := Float(req.temperature.value)] else map[];
    withTemperature["maxOutputTokens" := Int(if req.maxTokens.Some? then req.maxTokens.value else DefaultMaxOutputTokens)]
  }

  /** The request body Gemini receives, or the error that stops it being
      sent: all surviving parts in one content entry, never an empty one. */
  function PayloadOf(req: ChatRequest, fetchImage: string -> ImageFetch): Result<GeminiPayload, Error> {
    match PartsOf(AllParts(req.messages), fetchImage)
    case Failure(e) => Failure(e)
    case Success(parts) =>
      if parts == [] then Failure(NoValidContent)
      else Success(GeminiPayload([GeminiContent(parts)], GenerationConfig(req)))
  }

  /** The inner loop of ChatCompletion, over the parts of one message. */
  method MessageParts(content: seq<ContentPart>, fetchImage: string -> ImageFetch) returns (r: Result<seq<GeminiPart>, Error>)
    ensures r == PartsOf(content, fetchImage)
  {
    var parts: seq<GeminiPart> := [];
    for j := 0 to |content|
      invariant PartsOf(content[..j], fetchImage) == Success(parts)
    {
      assert content[..j + 1][..j] == content[..j];
      ghost var before := parts;
      var part := content[j];
      if part.typ == "text" {
        parts := parts + [GeminiText(part.text)];
      } else if part.typ == "image_url" && part.imageURL.Some? {
        var image := ResolveImageURL(part.imageURL.value.url, fetchImage);
        if image.Failure? {
          assert content == content[..j + 1] + content[j + 1..];
          FailureIsFinal(content[..j + 1], content[j + 1..], fetchImage);
          return Failure(image.error);
        }
        var base64Data, mimeType := image.value.0, image.value.1;
        if base64Data != "" && mimeType != "" {
          parts := parts + [InlineData(mimeType, base64Data)];
        }
      }
      assert PartOf(part, fetchImage).Success? && parts == before + PartOf(part, fetchImage).value;
    }
    assert content[..|content|] == content;
    r := Success(parts);
  }

  /** The outer loop of ChatCompletion, over the messages. */
  method CollectParts(ms: seq<ChatMessage>, fetchImage: string -> ImageFetch) returns (r: Result<seq<GeminiPart>, Error>)
    ensures r == PartsOf(AllParts(ms), fetchImage)
  {
    var parts: seq<GeminiPart> := [];
    for i := 0 to |ms|
      invariant PartsOf(AllParts(ms[..i]), fetchImage) == Success(parts)
    {
      assert ms[..i + 1][..i] == ms[..i];
      var more := MessageParts(ms[i].content, fetchImage);
      PartsOfAppend(AllParts(ms[..i]), ms[i].content, fetchImage);
      if more.Failure? {
        assert ms == ms[..i + 1] + ms[i + 1..];
        AllPartsAppend(ms[..i + 1], ms[i + 1..]);
        FailureIsFinal(AllParts(ms[..i + 1]), AllParts(ms[i + 1..]), fetchImage);
        return Failure(more.error);
      }
      parts := parts + more.value;
    }
    assert ms[..|ms|] == ms;
    r := Success(parts);
  }

  method BuildPayload(req: ChatRequest, fetchImage: string -> ImageFetch) returns (r: Result<GeminiPayload, Error>)
    ensures r == PayloadOf(req, fetchImage)
  {
    var parts := CollectParts(req.messages, fetchImage);
    if parts.Failure? {
      return Failure(parts.error);
    }
    if |parts.value| == 0 {
      return Failure(NoValidContent);
    }
    var generationConfig: map<string, Scalar> := map[];
    if req.temperature.Some? {
      generationConfig := generationConfig["temperature" := Float(req.temperature.value)];
    }
    if req.maxTokens.Some? {
      generationConfig := generationConfig["maxOutputTokens" := Int(req.maxTokens.value)];
    } else {
      generationConfig := generationConfig["maxOutputTokens" := Int(DefaultMaxOutputTokens)];
    }
    r := Success(GeminiPayload([GeminiContent(parts.value)], generationConfig));
  }

  // ---------------------------------------------------------------------------
  // Response mapping

  /** The position of the first blocking safety rating, if any. */
  function FirstBlocked(ratings: seq<SafetyRating>): (r: Option<nat>)
    ensures r.None? <==> forall k :: 0 <= k < |ratings| ==> !ratings[k].blocked
    ensures r.Some? ==> (r.value < |ratings| && ratings[r.value].blocked
      && forall k :: 0 <= k < r.value ==> !ratings[k].blocked)
    decreases |ratings|
  {
    if ratings == [] then None
    else if ratings[0].blocked then Some(0)
    else match FirstBlocked(ratings[1..])
      case None => None
      case Some(k) => Some(k + 1)
  }

  /** The text of a candidate's choice: its first part's text (or empty), or
      the truncation notice when it stopped at the token limit with no parts. */
  function CandidateText(c: Candidate): string {
    var content := if |c.parts| > 0 && c.parts[0] != "" then c.parts[0] else "";
    if ToLower(c.finishReason) == "max_tokens" && |c.parts| == 0 then TruncationNotice else content
  }

  function CandidateChoice(i: nat, c: Candidate): Choice {
    Choice(i, ChatMessage("assistant", [TextPart(CandidateText(c))]), ToLower(c.finishReason))
  }

  function CandidateChoices(cs: seq<Candidate>): seq<Choice> {
    seq(|cs|, i requires 0 <= i < |cs| => CandidateChoice(i, cs[i]))
  }

  function UsageOf(m: UsageMetadata): Usage {
    Usage(m.promptTokenCount, m.candidatesTokenCount, m.totalTokenCount)
  }

  /** The loop that fills `response.Choices[i]`. */
  method MapCandidates(cs: seq<Candidate>) returns (out: seq<Choice>)
    ensures |out| == |cs|
    ensures forall i :: 0 <= i < |cs| ==> out[i] == CandidateChoice(i, cs[i])
  {
    var choices := new Choice[|cs|];
    for i := 0 to |cs|
      invariant forall k :: 0 <= k < i ==> choices[k] == CandidateChoice(k, cs[k])
    {
      var candidate := cs[i];
      var content := "";
      if |candidate.parts| > 0 && candidate.parts[0] != "" {
        content := candidate.parts[0];
      }
      var finishReason := ToLower(candidate.finishReason);
      if finishReason == "max_tokens" && |candidate.parts| == 0 {
        content := TruncationNotice;
      }
      choices[i] := Choice(i, ChatMessage("assistant", [TextPart(content)]), finishReason);
    }
    out := choices[..];
  }

  /** Reply handling: the reply's identifier and timestamp are made from the
      clock, its model is the one asked for. */
  function ResponseOf(model: string, now: int, o: HttpOutcome<GeminiReply>): Result<ChatResponse, Error> {
    match o
    case TransportFailure(reason) => Failure(RequestFailed(reason))
    case Response(status, body, parsed) =>
      if status != StatusOK then Failure(ApiError(status, body))
      else if parsed.None? then Failure(ParseFailure)
      else
        var reply := parsed.value;
        match FirstBlocked(reply.safetyRatings)
        case Some(k) => Failure(SafetyBlocked(reply.safetyRatings[k].category, reply.safetyRatings[k].probability))
        case None =>
          if |reply.candidates| == 0 then Failure(NoCandidates)
          else Success(ChatResponse("gemini-" + Decimal(now), ResponseObject, now, model,
                                    CandidateChoices(reply.candidates), UsageOf(reply.usageMetadata)))
  }

  method MapResponse(model: string, now: int, o: HttpOutcome<GeminiReply>) returns (r: Result<ChatResponse, Error>)
    ensures r == ResponseOf(model, now, o)
  {
    match o
    case TransportFailure(reason) =>
      return Failure(RequestFailed(reason));
    case Response(status, body, parsed) =>
      if status != StatusOK {
        return Failure(ApiError(status, body));
      }
      if parsed.None? {
        return Failure(ParseFailure);
      }
      var reply := parsed.value;
      var ratings := reply.safetyRatings;
      for k := 0 to |ratings|
        invariant forall m :: 0 <= m < k ==> !ratings[m].blocked
      {
        if ratings[k].blocked {
          return Failure(SafetyBlocked(ratings[k].category, ratings[k].probability));
        }
      }
      if |reply.candidates| == 0 {
        return Failure(NoCandidates);
      }
      var choices := MapCandidates(reply.candidates);
      assert choices == CandidateChoices(reply.candidates);
      r := Success(ChatResponse("gemini-" + Decimal(now), ResponseObject, now, model, choices, UsageOf(reply.usageMetadata)));
  }

  /** The whole adapter: nothing is sent when the payload cannot be built. */
  function Complete(req: ChatRequest, apiKey: string, io: Io): Result<ChatResponse, Error> {
    var model := EffectiveModel(req);
    match PayloadOf(req, io.fetchImage)
    case Failure(e) => Failure(e)
    case Success(payload) => ResponseOf(model, io.unixNow, io.sendGemini(model, apiKey, payload))
  }

  method ChatCompletion(req: ChatRequest, apiKey: string, io: Io) returns (r: Result<ChatResponse, Error>)
    ensures r == Complete(req, apiKey, io)
  {
    var model := req.model;
    if model == "" {
      model := DefaultModel;
    }
    var payload := BuildPayload(req, io.fetchImage);
    if payload.Failure? {
      return Failure(payload.error);
    }
    var outcome := io.sendGemini(model, apiKey, payload.value);
    r := MapResponse(model, io.unixNow, outcome);
  }

  // ---------------------------------------------------------------------------
  // Properties

  /** Text parts are passed through one for one, in order. */
  lemma {:induction false} TextPartsKept(ps: seq<ContentPart>, fetchImage: string -> ImageFetch)
    requires forall k :: 0 <= k < |ps| ==> ps[k].typ == "text"
    ensures PartsOf(ps, fetchImage).Success?
    ensures |PartsOf(ps, fetchImage).value| == |ps|
    ensures forall k :: 0 <= k < |ps| ==> PartsOf(ps, fetchImage).value[k] == GeminiText(ps[k].text)
    decreases |ps|
  {
    if ps != [] {
      var init := ps[..|ps| - 1];
      assert forall k :: 0 <= k < |init| ==> init[k] == ps[k];
      TextPartsKept(init, fetchImage);
      assert ps[|ps| - 1].typ == "text";
      assert PartOf(ps[|ps| - 1], fetchImage) == Success([GeminiText(ps[|ps| - 1].text)]);
    }
  }

  /** Equal results on two prefixes stay equal whatever follows. */
  lemma {:induction false} SamePrefixSameParts(x: seq<ContentPart>, y: seq<ContentPart>, b: seq<ContentPart>,
                                               fetchImage: string -> ImageFetch)
    requires PartsOf(x, fetchImage) == PartsOf(y, fetchImage)
    ensures PartsOf(x + b, fetchImage) == PartsOf(y + b, fetchImage)
    decreases |b|
  {
    if b == [] {
      assert x + b == x && y + b == y;
    } else {
      var b' := b[..|b| - 1];
      assert (x + b)[..|x + b| - 1] == x + b' && (x + b)[|x + b| - 1] == b[|b| - 1];
      assert (y + b)[..|y + b| - 1] == y + b' && (y + b)[|y + b| - 1] == b[|b| - 1];
      SamePrefixSameParts(x, y, b', fetchImage);
    }
  }

  /** A part that is neither text nor an image with a URL is skipped: the
      parts around it give the same result without it. */
  lemma SkippedPartIgnored(a: seq<ContentPart>, p: ContentPart, b: seq<ContentPart>, fetchImage: string -> ImageFetch)
    requires p.typ != "text" && !(p.typ == "image_url" && p.imageURL.Some?)
    ensures PartsOf(a + [p] + b, fetchImage) == PartsOf(a + b, fetchImage)
  {
    assert (a + [p])[..|a + [p]| - 1] == a && (a + [p])[|a + [p]| - 1] == p;
    assert PartsOf(a + [p], fetchImage) == PartsOf(a, fetchImage) by {
      if PartsOf(a, fetchImage).Success? {
        assert PartsOf(a, fetchImage).value + [] == PartsOf(a, fetchImage).value;
      }
    }
    SamePrefixSameParts(a + [p], a, b, fetchImage);
  }

  /** An image reference that is neither a `data:image/` URI nor an http(s)
      URL fails the parts with "unsupported image URL", unless an earlier
      part has already failed; what follows does not matter. */
  lemma UnsupportedSchemeRejected(a: seq<ContentPart>, p: ContentPart, b: seq<ContentPart>, fetchImage: string -> ImageFetch)
    requires PartsOf(a, fetchImage).Success?
    requires p.typ == "image_url" && p.imageURL.Some?
    requires !HasPrefix(p.imageURL.value.url, "data:image/")
    requires !HasPrefix(p.imageURL.value.url, "http://") && !HasPrefix(p.imageURL.value.url, "https://")
    ensures PartsOf(a + [p] + b, fetchImage) == Failure(UnsupportedImageURL(p.imageURL.value.url))
  {
    assert (a + [p])[..|a + [p]| - 1] == a && (a + [p])[|a + [p]| - 1] == p;
    assert PartsOf(a + [p], fetchImage) == Failure(UnsupportedImageURL(p.imageURL.value.url));
    FailureIsFinal(a + [p], b, fetchImage);
  }

  /** Where part `j` of message `i` sits among all the parts. */
  lemma SplitAt(ms: seq<ChatMessage>, i: nat, j: nat)
    requires i < |ms| && j < |ms[i].content|
    ensures AllParts(ms) == (AllParts(ms[..i]) + ms[i].content[..j]) + [ms[i].content[j]]
                            + (ms[i].content[j + 1..] + AllParts(ms[i + 1..]))
  {
    var c := ms[i].content;
    var before, after := AllParts(ms[..i]), AllParts(ms[i + 1..]);
    assert ms == ms[..i + 1] + ms[i + 1..];
    AllPartsAppend(ms[..i + 1], ms[i + 1..]);
    assert ms[..i + 1][..i] == ms[..i] && ms[..i + 1][i] == ms[i];
    assert AllParts(ms[..i + 1]) == before + c;
    assert c == c[..j] + [c[j]] + c[j + 1..];
    assert AllParts(ms) == before + c + after;
  }

  /** An unsupported image reference in a request fails it before anything
      is sent, once the parts before it have been resolved. */
  lemma UnsupportedSchemeStopsBeforeCall(req: ChatRequest, apiKey: string, io: Io, i: nat, j: nat)
    requires i < |req.messages| && j < |req.messages[i].content|
    requires PartsOf(AllParts(req.messages[..i]) + req.messages[i].content[..j], io.fetchImage).Success?
    requires req.messages[i].content[j].typ == "image_url" && req.messages[i].content[j].imageURL.Some?
    requires var url := req.messages[i].content[j].imageURL.value.url;
      !HasPrefix(url, "data:image/") && !HasPrefix(url, "http://") && !HasPrefix(url, "https://")
    ensures PayloadOf(req, io.fetchImage) == Failure(UnsupportedImageURL(req.messages[i].content[j].imageURL.value.url))
    ensures Complete(req, apiKey, io) == Failure(UnsupportedImageURL(req.messages[i].content[j].imageURL.value.url))
  {
    var ms := req.messages;
    SplitAt(ms, i, j);
    UnsupportedSchemeRejected(AllParts(ms[..i]) + ms[i].content[..j], ms[i].content[j],
                              ms[i].content[j + 1..] + AllParts(ms[i + 1..]), io.fetchImage);
  }

  /** Every inline image sent carries a non-empty mime type and data. */
  lemma {:induction false} InlineDataNonEmpty(ps: seq<ContentPart>, fetchImage: string -> ImageFetch)
    requires PartsOf(ps, fetchImage).Success?
    ensures forall q :: q in PartsOf(ps, fetchImage).value && q.InlineData? ==> q.mimeType != "" && q.data != ""
    decreases |ps|
  {
    if ps != [] {
      InlineDataNonEmpty(ps[..|ps| - 1], fetchImage);
    }
  }

  /** Only the parts of the messages matter, not how they are grouped or
      which role sends them. */
  lemma {:induction false} RolesIgnored(ms: seq<ChatMessage>, roles: seq<string>)
    requires |roles| == |ms|
    ensures AllParts(seq(|ms|, k requires 0 <= k < |ms| => ChatMessage(roles[k], ms[k].content))) == AllParts(ms)
    decreases |ms|
  {
    if ms != [] {
      var n := |ms| - 1;
      var relabelled := seq(|ms|, k requires 0 <= k < |ms| => ChatMessage(roles[k], ms[k].content));
      assert relabelled[..n] == seq(n, k requires 0 <= k < n => ChatMessage(roles[..n][k], ms[..n][k].content));
      RolesIgnored(ms[..n], roles[..n]);
    }
  }

  /** A built payload holds exactly one content entry, never an empty one,
      and the generation configuration; with no usable part nothing is built. */
  lemma PayloadShape(req: ChatRequest, fetchImage: string -> ImageFetch)
    ensures PartsOf(AllParts(req.messages), fetchImage) == Success([]) ==>
      PayloadOf(req, fetchImage) == Failure(NoValidContent)
    ensures PayloadOf(req, fetchImage).Success? ==>
      && PartsOf(AllParts(req.messages), fetchImage).Success?
      && PayloadOf(req, fetchImage).value.contents == [GeminiContent(PartsOf(AllParts(req.messages), fetchImage).value)]
      && |PayloadOf(req, fetchImage).value.contents[0].parts| > 0
      && PayloadOf(req, fetchImage).value.generationConfig["maxOutputTokens"]
         == Int(if req.maxTokens.Some? then req.maxTokens.value else 2048)
  {
  }

  /** An error while building the payload is the adapter's answer, whatever
      Gemini would have replied. */
  lemma NothingSentOnBadPayload(req: ChatRequest, apiKey: string, io: Io)
    requires PayloadOf(req, io.fetchImage).Failure?
    ensures Complete(req, apiKey, io) == Failure(PayloadOf(req, io.fetchImage).error)
  {
  }

  /** A blocking safety rating wins over the candidates, and the first such
      rating is the one reported. */
  lemma SafetyBlockWins(model: string, now: int, body: string, reply: GeminiReply, k: nat)
    requires k < |reply.safetyRatings| && reply.safetyRatings[k].blocked
    requires forall m :: 0 <= m < k ==> !reply.safetyRatings[m].blocked
    ensures ResponseOf(model, now, Response(StatusOK, body, Some(reply)))
         == Failure(SafetyBlocked(reply.safetyRatings[k].category, reply.safetyRatings[k].probability))
  {
  }

  /** A successful reply has one choice per candidate, renumbered from zero,
      each from the assistant with a single text part; it is stamped with the
      clock and the model asked for. */
  lemma SuccessShape(model: string, now: int, o: HttpOutcome<GeminiReply>)
    requires ResponseOf(model, now, o).Success?
    ensures o.Response? && o.status == StatusOK && o.parsed.Some?
    ensures forall m :: 0 <= m < |o.parsed.value.safetyRatings| ==> !o.parsed.value.safetyRatings[m].blocked
    ensures var resp := ResponseOf(model, now, o).value;
      && resp.id == "gemini-" + Decimal(now) && resp.created == now && resp.model == model
      && resp.objectTag == "chat.completion"
      && |resp.choices| == |o.parsed.value.candidates| > 0
      && (forall i :: 0 <= i < |resp.choices| ==>
            resp.choices[i].index == i && resp.choices[i].message.role == "assistant"
            && resp.choices[i].message.content == [TextPart(CandidateText(o.parsed.value.candidates[i]))]
            && resp.choices[i].finishReason == ToLower(o.parsed.value.candidates[i].finishReason))
      && (forall i :: 0 <= i < |resp.choices| ==> IsLower(resp.choices[i].finishReason))
      && resp.usage.promptTokens == o.parsed.value.usageMetadata.promptTokenCount
      && resp.usage.completionTokens == o.parsed.value.usageMetadata.candidatesTokenCount
      && resp.usage.totalTokens == o.parsed.value.usageMetadata.totalTokenCount
  {
    var candidates := o.parsed.value.candidates;
    forall i | 0 <= i < |candidates| ensures IsLower(ToLower(candidates[i].finishReason)) {
      ToLowerProperties(candidates[i].finishReason);
    }
  }

  /** The model is the request's, or gemini-2.5-flash when none is given;
      it is both the one asked of Gemini and the one reported back. */
  lemma ModelReported(req: ChatRequest, apiKey: string, io: Io)
    ensures EffectiveModel(req) == (if req.model != "" then req.model else "gemini-2.5-flash")
    ensures Complete(req, apiKey, io).Success? ==>
      && PayloadOf(req, io.fetchImage).Success?
      && Complete(req, apiKey, io) == ResponseOf(EffectiveModel(req), io.unixNow,
           io.sendGemini(EffectiveModel(req), apiKey, PayloadOf(req, io.fetchImage).value))
      && Complete(req, apiKey, io).value.model == EffectiveModel(req)
      && Complete(req, apiKey, io).value.objectTag == "chat.completion"
  {
  }

  /** A candidate cut off by the token limit with nothing in it gets the
      notice; otherwise the first part's text (or nothing) is kept. */
  lemma TruncationNoticeOnlyWhenEmpty(c: Candidate)
    ensures |c.parts| == 0 && ToLower(c.finishReason) == "max_tokens" ==> CandidateText(c) == TruncationNotice
    ensures |c.parts| > 0 ==> CandidateText(c) == c.parts[0]
    ensures |c.parts| == 0 && ToLower(c.finishReason) != "max_tokens" ==> CandidateText(c) == ""
  {
  }
}
