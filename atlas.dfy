/** The Atlas adapter (src/providers/atlas.go): the prompt alone, as one flat
    user message. */
module Atlas {
  import opened Wrappers
  import opened Models
  import opened Errors
  import opened Wire
  import opened OpenAICompat

  const Endpoint := "https://api.atlascloud.ai/v1/chat/completions"
  const DefaultModel := "openai/gpt-oss-20b"

  function EffectiveModel(req: ChatRequest): string {
    if req.model != "" then req.model else DefaultModel
  }

  /** The request body Atlas receives; `req.messages` plays no part. */
  function PayloadOf(req: ChatRequest): Payload {
    Payload(EffectiveModel(req), [WireMessage("user", Text(req.prompt))], Options(req.temperature, req.maxTokens))
  }

  method BuildPayload(req: ChatRequest) returns (payload: Payload)
    ensures payload == PayloadOf(req)
  {
    var messages := [WireMessage("user", Text(req.prompt))];
    var model := req.model;
    if model == "" {
      model := DefaultModel;
    }
    var options: map<string, Scalar> := map[];
    if req.temperature.Some? {
      options := options["temperature" := Float(req.temperature.value)];
    }
    if req.maxTokens.Some? {
      options := options["max_tokens" := Int(req.maxTokens.value)];
    }
    payload := Payload(model, messages, options);
  }

  /** Reply handling is the shared one. The source assigns the reply's content
      string directly to the choice's part list, which does not compile; as in
      the other adapters, it becomes a single text part. */
  function Complete(req: ChatRequest, apiKey: string, io: Io): Result<ChatResponse, Error> {
    OpenAICompat.ResponseOf(io.sendChat(Endpoint, apiKey, PayloadOf(req)))
  }

  method ChatCompletion(req: ChatRequest, apiKey: string, io: Io) returns (r: Result<ChatResponse, Error>)
    ensures r == Complete(req, apiKey, io)
  {
    var payload := BuildPayload(req);
    var outcome := io.sendChat(Endpoint, apiKey, payload);
    r := OpenAICompat.MapResponse(outcome);
  }

  /** The payload is one user message whose content is the prompt as a plain
      string, whatever `req.messages` holds; the model defaults to
      gpt-oss-20b; the optional parameters are sent exactly when requested. */
  lemma PayloadShape(req: ChatRequest, otherMessages: seq<ChatMessage>)
    ensures var payload := PayloadOf(req);
      && payload.messages == [WireMessage("user", Text(req.prompt))]
      && payload.model == (if req.model == "" then "openai/gpt-oss-20b" else req.model)
      && ("temperature" in payload.options <==> req.temperature.Some?)
      && ("max_tokens" in payload.options <==> req.maxTokens.Some?)
    ensures PayloadOf(req.(messages := otherMessages)) == PayloadOf(req)
  {
  }
}
