/** What goes over the wire, with JSON encoding and HTTP abstracted away:
    the payloads the adapters send, the already-decoded replies they receive,
    and the outside world (`Io`) that answers them. */
module Wire {
  import opened Wrappers
  import opened Models

  const StatusOK := 200

  /** A value of an optional generation parameter. */
  datatype Scalar = Float(f: real) | Int(n: int)

  /** OpenAI-compatible content part: `{type:text,text}` or `{type:image_url,image_url:{url}}`. */
  datatype WirePart = WireText(text: string) | WireImage(url: string)

  /** A message's content: a list of parts, or a plain string. */
  datatype WireContent = Parts(parts: seq<WirePart>) | Text(text: string)

  datatype WireMessage = WireMessage(role: string, content: WireContent)

  /** The OpenAI-compatible request body: `model`, `messages`, and the optional
      keys (`temperature`, `max_tokens`) that are present in `options` exactly
      when sent. */
  datatype Payload = Payload(model: string, messages: seq<WireMessage>, options: map<string, Scalar>)

  /** One decoded choice of an OpenAI-compatible reply. */
  datatype ReplyChoice = ReplyChoice(index: int, role: string, content: string, finishReason: string)

  /** A decoded OpenAI-compatible reply. */
  datatype OpenAIReply = OpenAIReply(
    id: string,
    objectTag: string,
    created: int,
    model: string,
    choices: seq<ReplyChoice>,
    usage: Usage)

  /** A Gemini content part: `{text}` or `{inline_data:{mime_type,data}}`. */
  datatype GeminiPart = GeminiText(text: string) | InlineData(mimeType: string, data: string)

  datatype GeminiContent = GeminiContent(parts: seq<GeminiPart>)

  /** The Gemini request body. The model travels in the URL and is kept
      apart; the constant `safetySettings` list is not modelled. */
  datatype GeminiPayload = GeminiPayload(contents: seq<GeminiContent>, generationConfig: map<string, Scalar>)

  /** A decoded Gemini candidate: the texts of its parts and its finish reason. */
  datatype Candidate = Candidate(parts: seq<string>, finishReason: string)

  datatype SafetyRating = SafetyRating(category: string, probability: string, blocked: bool)

  datatype UsageMetadata = UsageMetadata(promptTokenCount: int, candidatesTokenCount: int, totalTokenCount: int)

  /** A decoded Gemini reply (promptFeedback.safetyRatings flattened in). */
  datatype GeminiReply = GeminiReply(
    candidates: seq<Candidate>,
    safetyRatings: seq<SafetyRating>,
    usageMetadata: UsageMetadata)

  /** What one POST yields: a transport failure (the request could not be made
      or its body not read), or a status with the raw body and, when the body
      decodes into the expected shape, the decoded reply. */
  datatype HttpOutcome<R> =
    | TransportFailure(reason: string)
    | Response(status: int, body: string, parsed: Option<R>)

  /** What one image GET yields: a transport failure, or a status, the
      Content-Type header and the body (already base64-encoded; None when
      reading it failed). */
  datatype ImageFetch =
    | FetchFailed(reason: string)
    | Fetched(status: int, contentType: string, body: Option<string>)

  /** The outside world an adapter talks to: the upstream chat endpoints
      (OpenAI-compatible ones addressed by URL, Gemini by model name; both
      told the API key), the image downloader, and the clock in Unix seconds. */
  datatype Io = Io(
    sendChat: (string, string, Payload) -> HttpOutcome<OpenAIReply>,
    sendGemini: (string, string, GeminiPayload) -> HttpOutcome<GeminiReply>,
    fetchImage: string -> ImageFetch,
    unixNow: int)
}
