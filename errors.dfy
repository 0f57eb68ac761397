/** The failures the service reports. The Go code builds each one with
    fmt.Errorf; here each message becomes a constructor carrying the values
    the message interpolates. */
module Errors {

  datatype Error =
    | PromptRequired                                       // "prompt is required"
    | ProviderRequired                                     // "provider is required"
    | MissingAPIKey(provider: string)                      // "API key not found for provider: %s"
    | UnsupportedProvider(provider: string)                // "unsupported provider: %s"
    | ProviderNotFound(name: string)                       // "provider %s not found"
    | InvalidDataURI                                       // "invalid image data URI format"
    | UnsupportedImageURL(url: string)                     // "unsupported image URL format: %s"
    | ImageFetchFailed(reason: string)                     // "failed to download image: %v"
    | ImageHttpStatus(status: int)                         // "HTTP error %d downloading image"
    | ImageReadFailed                                      // "failed to read image data: %v"
    | NotAnImage(contentType: string)                      // "URL does not point to an image (Content-Type: %s)"
    | ImageDownloadFailed(cause: Error)                    // "failed to download image: %v", wrapping the above
    | NoValidContent                                       // "no valid content found in the request messages"
    | EmptyImageURL                                        // "empty image URL provided"
    | RequestFailed(reason: string)                        // "failed to make request" / "failed to read response"
    | ApiError(status: int, body: string)                  // "API request failed with status %d: %s"
    | ImageAccessError(body: string)                       // "image access error: %s"
    | ParseFailure                                         // "failed to parse response: %v"
    | SafetyBlocked(category: string, probability: string) // "prompt was blocked due to safety rating: ..."
    | NoCandidates                                         // "gemini API returned no candidates, ..."
}
