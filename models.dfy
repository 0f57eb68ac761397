/** The provider-agnostic request and response records (src/models/chat.go). */
module Models {
  import opened Wrappers

  datatype ImageURL = ImageURL(url: string)

  /** One unit of message content. Adapters act on `typ == "text"` (using
      `text`) and `typ == "image_url"` with an image URL present; other types
      are ignored. */
  datatype ContentPart = ContentPart(typ: string, text: string, imageURL: Option<ImageURL>)

  /** A role and its content parts, in the order the model reads them. */
  datatype ChatMessage = ChatMessage(role: string, content: seq<ContentPart>)

  /** The inbound request. `temperature` (a float64 in the source) and
      `maxTokens` are nil-able and no code in the repository applies their declared
      defaults. `imageData` is the optional raw base64 image the Chutes adapter
      reads; the Go struct does not declare it. `Tools` is never read and is
      not modelled. */
  datatype ChatRequest = ChatRequest(
    messages: seq<ChatMessage>,
    prompt: string,
    model: string,
    temperature: Option<real>,
    maxTokens: Option<int>,
    stream: Option<bool>,
    provider: string,
    withImage: bool,
    imageData: string)

  datatype Choice = Choice(index: int, message: ChatMessage, finishReason: string)

  datatype Usage = Usage(promptTokens: int, completionTokens: int, totalTokens: int)

  /** The normalised, OpenAI-style response. */
  datatype ChatResponse = ChatResponse(
    id: string,
    objectTag: string,
    created: int,
    model: string,
    choices: seq<Choice>,
    usage: Usage)

  /** The health report; its clock-derived timestamp is not modelled. */
  datatype HealthResponse = HealthResponse(status: string, services: map<string, string>)

  datatype ProvidersResponse = ProvidersResponse(providers: seq<string>)

  datatype TestProviderResponse = TestProviderResponse(provider: string, status: string)

  /** A content part holding only text, as every adapter builds its replies. */
  function TextPart(text: string): ContentPart {
    ContentPart("text", text, None)
  }
}
