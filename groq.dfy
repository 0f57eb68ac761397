/** The Groq adapter (src/providers/groq.go): structured messages with image
    URLs forwarded as given, a blank-URL check, and a dedicated reading of
    the "failed to retrieve media" rejection. */
module Groq {
  import opened Wrappers
  import opened Strings
  import opened Models
  import opened Errors
  import opened Wire
  import opened OpenAICompat

  const Endpoint := "https://api.groq.com/openai/v1/chat/completions"
  const VisionModel := "meta-llama/llama-4-maverick-17b-128e-instruct"
  const TextModel := "openai/gpt-oss-120b"
  /** The body text by which Groq signals that it could not fetch an image. */
  const MediaFailureMarker := "failed to retrieve media"

  /** An image part whose URL is empty after trimming white space. */
  predicate BlankImagePart(p: ContentPart) {
    p.typ == "image_url" && p.imageURL.Some? && TrimSpace(p.imageURL.value.url) == ""
  }

  predicate BlankFree(ps: seq<ContentPart>) {
    forall j :: 0 <= j < |ps| ==> !BlankImagePart(ps[j])
  }

  /** Some message of the list holds an image part with a blank URL. */
  predicate HasBlankImage(ms: seq<ChatMessage>) {
    exists i :: 0 <= i < |ms| && !BlankFree(ms[i].content)
  }

  /** The model named by the request, else the vision model when an image is
      attached and the text model otherwise. */
  function EffectiveModel(req: ChatRequest): string {
    if req.model != "" then req.model else if req.withImage then VisionModel else TextModel
  }

  /** The inner loop of ChatCompletion over one message's parts: text parts
      and image parts are translated in order, and the first image part with
      a blank URL aborts. */
  method BuildParts(content: seq<ContentPart>) returns (r: Result<seq<WirePart>, Error>)
    ensures r == if BlankFree(content) then Success(WireParts(content)) else Failure(EmptyImageURL)
  {
    var contentParts: seq<WirePart> := [];
    for j := 0 to |content|
      invariant contentParts == WireParts(content[..j])
      invariant BlankFree(content[..j])
    {
      var part := content[j];
      assert content[..j + 1][..j] == content[..j];
      if part.typ == "text" {
        contentParts := contentParts + [WireText(part.text)];
      } else if part.typ == "image_url" && part.imageURL.Some? {
        if TrimSpace(part.imageURL.value.url) == "" {
          assert BlankImagePart(content[j]);
          return Failure(EmptyImageURL);
        }
        // A URL that is not http(s) is only logged, and still forwarded.
        contentParts := contentParts + [WireImage(part.imageURL.value.url)];
      }
    }
    assert content[..|content|] == content;
    return Success(contentParts);
  }

  /** The outer loop of ChatCompletion that builds `messages`: each message
      becomes one wire message with the same role. */
  method BuildMessages(ms: seq<ChatMessage>) returns (r: Result<seq<WireMessage>, Error>)
    ensures r == if HasBlankImage(ms) then Failure(EmptyImageURL) else Success(WireMessages(ms))
  {
    var messages: seq<WireMessage> := [];
    for i := 0 to |ms|
      invariant messages == WireMessages(ms[..i])
      invariant forall k :: 0 <= k < i ==> BlankFree(ms[k].content)
    {
      var contentParts := BuildParts(ms[i].content);
      if contentParts.Failure? {
        return Failure(contentParts.error);
      }
      assert ms[..i + 1][..i] == ms[..i];
      messages := messages + [WireMessage(ms[i].role, Parts(contentParts.value))];
    }
    assert ms[..|ms|] == ms;
    return Success(messages);
  }

  /** The request body Groq receives, or the error that stops it being sent. */
  function PayloadOf(req: ChatRequest): Result<Payload, Error> {
    if HasBlankImage(req.messages) then Failure(EmptyImageURL)
    else Success(Payload(EffectiveModel(req), WireMessages(req.messages), Options(req.temperature, req.maxTokens)))
  }

  method BuildPayload(req: ChatRequest) returns (r: Result<Payload, Error>)
    ensures r == PayloadOf(req)
  {
    var messages := BuildMessages(req.messages);
    if messages.Failure? {
      return Failure(messages.error);
    }
    var model := req.model;
    if model == "" {
      if req.withImage {
        model := VisionModel;
      } else {
        model := TextModel;
      }
    }
    var options: map<string, Scalar> := map[];
    if req.temperature.Some? {
      options := options["temperature" := Float(req.temperature.value)];
    }
    if req.maxTokens.Some? {
      options := options["max_tokens" := Int(req.maxTokens.value)];
    }
    r := Success(Payload(model, messages.value, options));
  }

  /** Reply handling: a 400 whose body mentions the media failure is an image
      access error; any other non-200 status a generic error. */
  function ResponseOf(o: HttpOutcome<OpenAIReply>): Result<ChatResponse, Error> {
    match o
    case TransportFailure(reason) => Failure(RequestFailed(reason))
    case Response(status, body, parsed) =>
      if status != StatusOK then
        if status == 400 && Contains(body, MediaFailureMarker) then Failure(ImageAccessError(body))
        else Failure(ApiError(status, body))
      else if parsed.None? then Failure(ParseFailure)
      else Success(ToResponse(parsed.value))
  }

  method MapResponse(o: HttpOutcome<OpenAIReply>) returns (r: Result<ChatResponse, Error>)
    ensures r == ResponseOf(o)
  {
    match o
    case TransportFailure(reason) =>
      return Failure(RequestFailed(reason));
    case Response(status, body, parsed) =>
      if status != StatusOK {
        if status == 400 && Contains(body, MediaFailureMarker) {
          return Failure(ImageAccessError(body));
        }
        return Failure(ApiError(status, body));
      }
      if parsed.None? {
        return Failure(ParseFailure);
      }
      var reply := parsed.value;
      var choices := MapChoices(reply.choices);
      assert choices == Choices(reply.choices);
      r := Success(ChatResponse(reply.id, reply.objectTag, reply.created, reply.model, choices, reply.usage));
  }

  /** The whole adapter: nothing is sent when the payload cannot be built. */
  function Complete(req: ChatRequest, apiKey: string, io: Io): Result<ChatResponse, Error> {
    match PayloadOf(req)
    case Failure(e) => Failure(e)
    case Success(payload) => ResponseOf(io.sendChat(Endpoint, apiKey, payload))
  }

  method ChatCompletion(req: ChatRequest, apiKey: string, io: Io) returns (r: Result<ChatResponse, Error>)
    ensures r == Complete(req, apiKey, io)
  {
    var payload := BuildPayload(req);
    if payload.Failure? {
      return Failure(payload.error);
    }
    var outcome := io.sendChat(Endpoint, apiKey, payload.value);
    r := MapResponse(outcome);
  }

  /** The built payload: it exists exactly when no image URL is blank (white
      space only), and then it holds one message per input message with the
      same role and that message's text and image parts in order, the image
      URLs verbatim whatever their scheme; the model defaults by `withImage`;
      `temperature` and `max_tokens` are present exactly when requested. */
  lemma PayloadShape(req: ChatRequest)
    ensures PayloadOf(req).Success? <==>
      forall i, j :: 0 <= i < |req.messages| && 0 <= j < |req.messages[i].content| ==>
        var p := req.messages[i].content[j];
        p.typ == "image_url" && p.imageURL.Some? ==> !AllSpace(p.imageURL.value.url)
    ensures PayloadOf(req).Success? ==>
      var payload := PayloadOf(req).value;
      && payload.model == (if req.model != "" then req.model else if req.withImage then VisionModel else TextModel)
      && |payload.messages| == |req.messages|
      && (forall i :: 0 <= i < |req.messages| ==>
            payload.messages[i] == WireMessage(req.messages[i].role, Parts(WireParts(req.messages[i].content))))
      && ("temperature" in payload.options <==> req.temperature.Some?)
      && ("max_tokens" in payload.options <==> req.maxTokens.Some?)
  {
    WireMessagesShape(req.messages);
    forall p: ContentPart | p.imageURL.Some? {
      TrimSpaceEmpty(p.imageURL.value.url);
    }
  }

  /** A blank image URL fails the request before anything is sent, whatever
      the upstream would have answered. */
  lemma BlankImageStopsBeforeCall(req: ChatRequest, apiKey: string, io: Io, i: nat, j: nat)
    requires i < |req.messages| && j < |req.messages[i].content|
    requires req.messages[i].content[j].typ == "image_url"
    requires req.messages[i].content[j].imageURL.Some?
    requires AllSpace(req.messages[i].content[j].imageURL.value.url)
    ensures Complete(req, apiKey, io) == Failure(EmptyImageURL)
  {
    TrimSpaceEmpty(req.messages[i].content[j].imageURL.value.url);
    assert !BlankFree(req.messages[i].content);
  }

  /** Status 400 with the media-failure text anywhere in the body is reported
      as an image access error carrying the body ... */
  lemma MediaFailureRecognised(prefix: string, suffix: string, parsed: Option<OpenAIReply>)
    ensures var body := prefix + MediaFailureMarker + suffix;
      ResponseOf(Response(400, body, parsed)) == Failure(ImageAccessError(body))
  {
    var body := prefix + MediaFailureMarker + suffix;
    assert body[|prefix|..|prefix| + |MediaFailureMarker|] == MediaFailureMarker;
    ContainsAt(body, MediaFailureMarker, |prefix|);
  }

  /** ... only then; every other non-200 status is a generic error with the
      status and body, and a 200 reply is passed through as elsewhere. */
  lemma StatusClassified(o: HttpOutcome<OpenAIReply>)
    ensures ResponseOf(o).Failure? && ResponseOf(o).error.ImageAccessError? ==>
      o.Response? && o.status == 400 && exists i: nat :: OccursAt(o.body, MediaFailureMarker, i)
    ensures o.Response? && o.status != StatusOK && !(o.status == 400 && Contains(o.body, MediaFailureMarker)) ==>
      ResponseOf(o) == Failure(ApiError(o.status, o.body))
    ensures o.Response? && o.status == StatusOK ==> ResponseOf(o) == OpenAICompat.ResponseOf(o)
  {
    if o.Response? && o.status == 400 && Contains(o.body, MediaFailureMarker) {
      ContainsHasPosition(o.body, MediaFailureMarker);
    }
  }
}
