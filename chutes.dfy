/** The Chutes adapter (src/providers/chutes.go): a single user message built
    from the prompt and, optionally, the attached raw base64 image. */
module Chutes {
  import opened Wrappers
  import opened Models
  import opened Errors
  import opened Wire
  import opened OpenAICompat

  const Endpoint := "https://llm.chutes.ai/v1/chat/completions"
  const DefaultModel := "zai-org/GLM-4.5-FP8"
  /** The data-URI header put in front of the attached image data. */
  const JpegDataURIPrefix := "data:image/jpeg;base64,"

  function EffectiveModel(req: ChatRequest): string {
    if req.model != "" then req.model else DefaultModel
  }

  /** The parts of the one message: the prompt as text, even when empty, then
      the attached image as a data URI when there is one. (The source builds
      model ContentPart values and lets JSON encoding produce these shapes.) */
  function ContentOf(req: ChatRequest): seq<WirePart> {
    [WireText(req.prompt)]
    + (if req.withImage && req.imageData != "" then [WireImage(JpegDataURIPrefix + req.imageData)] else [])
  }

  /** The request body Chutes receives; `req.messages` plays no part. */
  function PayloadOf(req: ChatRequest): Payload {
    Payload(EffectiveModel(req), [WireMessage("user", Parts(ContentOf(req)))], Options(req.temperature, req.maxTokens))
  }

  method BuildPayload(req: ChatRequest) returns (payload: Payload)
    ensures payload == PayloadOf(req)
  {
    var contentParts := [WireText(req.prompt)];
    if req.withImage && req.imageData != "" {
      contentParts := contentParts + [WireImage(JpegDataURIPrefix + req.imageData)];
    }
    assert contentParts == ContentOf(req);
    var messages := [WireMessage("user", Parts(contentParts))];
    var model := req.model;
    if model == "" {
      model := DefaultModel;
    }
    var options: map<string, Scalar> := map[];
    if req.temperature.Some? {
      options := options["temperature" := Float(req.temperature.value)];
    }
    if req.maxTokens.Some? {
      options := options["max_tokens" := Int(req.maxTokens.value)];
    }
    payload := Payload(model, messages, options);
  }

  function Complete(req: ChatRequest, apiKey: string, io: Io): Result<ChatResponse, Error> {
    OpenAICompat.ResponseOf(io.sendChat(Endpoint, apiKey, PayloadOf(req)))
  }

  method ChatCompletion(req: ChatRequest, apiKey: string, io: Io) returns (r: Result<ChatResponse, Error>)
    ensures r == Complete(req, apiKey, io)
  {
    var payload := BuildPayload(req);
    var outcome := io.sendChat(Endpoint, apiKey, payload);
    r := OpenAICompat.MapResponse(outcome);
  }

  /** The payload has exactly one message, from the user; its first part is
      the prompt as text; a second part, the JPEG data URI of the image data,
      is present exactly when an image is flagged and its data is non-empty;
      the model defaults to GLM-4.5; the optional parameters are sent exactly
      when requested; and the request's own message list is ignored. */
  lemma PayloadShape(req: ChatRequest, otherMessages: seq<ChatMessage>)
    ensures var payload := PayloadOf(req);
      && |payload.messages| == 1 && payload.messages[0].role == "user"
      && payload.messages[0].content.Parts?
      && var parts := payload.messages[0].content.parts;
      && parts[0] == WireText(req.prompt)
      && (|parts| == 2 <==> req.withImage && req.imageData != "")
      && (|parts| == 2 ==> parts[1] == WireImage("data:image/jpeg;base64," + req.imageData))
      && |parts| <= 2
      && payload.model == (if req.model == "" then "zai-org/GLM-4.5-FP8" else req.model)
      && ("temperature" in payload.options <==> req.temperature.Some?)
      && ("max_tokens" in payload.options <==> req.maxTokens.Some?)
    ensures PayloadOf(req.(messages := otherMessages)) == PayloadOf(req)
  {
  }
}
