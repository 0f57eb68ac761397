/** The OpenRouter adapter (src/providers/openrouter.go): the same structured
    translation as Groq's without the blank-URL check, and its own model
    defaults. */
module OpenRouter {
  import opened Wrappers
  import opened Models
  import opened Errors
  import opened Wire
  import opened OpenAICompat
  import Groq

  const Endpoint := "https://openrouter.ai/api/v1/chat/completions"
  const VisionModel := "google/gemini-2.5-flash-image-preview:free"
  const TextModel := "deepseek/deepseek-chat-v3.1:free"

  /** The model named by the request, else the vision model when an image is
      attached and the text model otherwise. */
  function EffectiveModel(req: ChatRequest): string {
    if req.model != "" then req.model else if req.withImage then VisionModel else TextModel
  }

  /** The inner loop over one message's parts: text and image parts are
      translated in order, other parts dropped. */
  method BuildParts(content: seq<ContentPart>) returns (parts: seq<WirePart>)
    ensures parts == WireParts(content)
  {
    parts := [];
    for j := 0 to |content|
      invariant parts == WireParts(content[..j])
    {
      var part := content[j];
      assert content[..j + 1][..j] == content[..j];
      if part.typ == "text" {
        parts := parts + [WireText(part.text)];
      } else if part.typ == "image_url" && part.imageURL.Some? {
        parts := parts + [WireImage(part.imageURL.value.url)];
      }
    }
    assert content[..|content|] == content;
  }

  /** The outer loop: one wire message per input message, same role. */
  method BuildMessages(ms: seq<ChatMessage>) returns (messages: seq<WireMessage>)
    ensures messages == WireMessages(ms)
  {
    messages := [];
    for i := 0 to |ms|
      invariant messages == WireMessages(ms[..i])
    {
      var contentParts := BuildParts(ms[i].content);
      assert ms[..i + 1][..i] == ms[..i];
      messages := messages + [WireMessage(ms[i].role, Parts(contentParts))];
    }
    assert ms[..|ms|] == ms;
  }

  /** The request body OpenRouter receives; building it cannot fail. */
  function PayloadOf(req: ChatRequest): Payload {
    Payload(EffectiveModel(req), WireMessages(req.messages), Options(req.temperature, req.maxTokens))
  }

  method BuildPayload(req: ChatRequest) returns (payload: Payload)
    ensures payload == PayloadOf(req)
  {
    var messages := BuildMessages(req.messages);
    var model := req.model;
    if model == "" {
      if req.withImage {
        model := VisionModel;
      } else {
        model := TextModel;
      }
    }
    var options: map<string, Scalar> := map[];
    if req.temperature.Some? {
      options := options["temperature" := Float(req.temperature.value)];
    }
    if req.maxTokens.Some? {
      options := options["max_tokens" := Int(req.maxTokens.value)];
    }
    payload := Payload(model, messages, options);
  }

  function Complete(req: ChatRequest, apiKey: string, io: Io): Result<ChatResponse, Error> {
    OpenAICompat.ResponseOf(io.sendChat(Endpoint, apiKey, PayloadOf(req)))
  }

  method ChatCompletion(req: ChatRequest, apiKey: string, io: Io) returns (r: Result<ChatResponse, Error>)
    ensures r == Complete(req, apiKey, io)
  {
    var payload := BuildPayload(req);
    var outcome := io.sendChat(Endpoint, apiKey, payload);
    r := OpenAICompat.MapResponse(outcome);
  }

  /** The built payload holds one message per input message with the same
      role and that message's text and image parts in order (no URL check:
      a blank URL is forwarded); the model defaults by `withImage`;
      `temperature` and `max_tokens` are present exactly when requested. */
  lemma PayloadShape(req: ChatRequest)
    ensures var payload := PayloadOf(req);
      && payload.model == (if req.model != "" then req.model else if req.withImage then VisionModel else TextModel)
      && |payload.messages| == |req.messages|
      && (forall i :: 0 <= i < |req.messages| ==>
            payload.messages[i] == WireMessage(req.messages[i].role, Parts(WireParts(req.messages[i].content))))
      && ("temperature" in payload.options <==> req.temperature.Some?)
      && ("max_tokens" in payload.options <==> req.maxTokens.Some?)
  {
    WireMessagesShape(req.messages);
  }

  /** OpenRouter and Groq send the same messages and the same optional
      parameters whenever Groq accepts the request; they differ only in the
      default models. */
  lemma SameTranslationAsGroq(req: ChatRequest)
    ensures Groq.PayloadOf(req).Success? ==>
      && Groq.PayloadOf(req).value.messages == PayloadOf(req).messages
      && Groq.PayloadOf(req).value.options == PayloadOf(req).options
    ensures req.model != "" && Groq.PayloadOf(req).Success? ==> Groq.PayloadOf(req).value == PayloadOf(req)
  {
  }
}
