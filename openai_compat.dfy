/** The OpenAI-compatible chat format that four of the five adapters (Groq,
    OpenRouter, Chutes, Atlas) and the legacy service speak. Each Go file
    repeats this code; the model states it once and each adapter uses it. */
module OpenAICompat {
  import opened Wrappers
  import opened Models
  import opened Errors
  import opened Wire

  /** A part the translation keeps: text, or an image with its URL present. */
  predicate Translated(p: ContentPart) {
    p.typ == "text" || (p.typ == "image_url" && p.imageURL.Some?)
  }

  /** The wire form of one part (none when the part is dropped); the URL is
      forwarded verbatim. */
  function WirePartOf(p: ContentPart): seq<WirePart> {
    if p.typ == "text" then [WireText(p.text)]
    else if p.typ == "image_url" && p.imageURL.Some? then [WireImage(p.imageURL.value.url)]
    else []
  }

  /** The wire parts of a message's content, in order. */
  function WireParts(ps: seq<ContentPart>): seq<WirePart>
    decreases |ps|
  {
    if ps == [] then [] else WireParts(ps[..|ps| - 1]) + WirePartOf(ps[|ps| - 1])
  }

  /** Translating a concatenation translates each half, in order. */
  lemma {:induction false} WirePartsAppend(a: seq<ContentPart>, b: seq<ContentPart>)
    ensures WireParts(a + b) == WireParts(a) + WireParts(b)
    decreases |b|
  {
    if b == [] {
      assert a + b == a;
    } else {
      assert (a + b)[..|a + b| - 1] == a + b[..|b| - 1];
      WirePartsAppend(a, b[..|b| - 1]);
    }
  }

  /** A part of any other type, or an image part without a URL, is dropped
      and leaves the parts around it, in their order, as they were. */
  lemma DroppedPartIgnored(a: seq<ContentPart>, p: ContentPart, b: seq<ContentPart>)
    requires !Translated(p)
    ensures WireParts(a + [p] + b) == WireParts(a + b)
  {
    WirePartsAppend(a + [p], b);
    WirePartsAppend(a, [p]);
    WirePartsAppend(a, b);
    assert WireParts([p]) == [] by { assert [p][..0] == []; }
  }

  /** No part is invented, and when every part is one the translation keeps,
      the k-th wire part is the translation of the k-th input part. */
  lemma {:induction false} WirePartsOneToOne(ps: seq<ContentPart>)
    ensures |WireParts(ps)| <= |ps|
    ensures (forall k :: 0 <= k < |ps| ==> Translated(ps[k])) ==>
      |WireParts(ps)| == |ps| && forall k :: 0 <= k < |ps| ==> [WireParts(ps)[k]] == WirePartOf(ps[k])
    decreases |ps|
  {
    if ps != [] {
      var init := ps[..|ps| - 1];
      WirePartsOneToOne(init);
      if forall k :: 0 <= k < |ps| ==> Translated(ps[k]) {
        assert forall k :: 0 <= k < |init| ==> Translated(init[k]) by {
          forall k | 0 <= k < |init| ensures Translated(init[k]) { assert init[k] == ps[k]; }
        }
        assert Translated(ps[|ps| - 1]);
      }
    }
  }

  /** The wire message for one input message: same role, translated parts. */
  function WireMessageOf(m: ChatMessage): WireMessage {
    WireMessage(m.role, Parts(WireParts(m.content)))
  }

  /** The wire messages for a message list. */
  function WireMessages(ms: seq<ChatMessage>): seq<WireMessage>
    decreases |ms|
  {
    if ms == [] then [] else WireMessages(ms[..|ms| - 1]) + [WireMessageOf(ms[|ms| - 1])]
  }

  /** Exactly one wire message per input message, at the same position, with
      the same role, and with that message's parts translated in order. */
  lemma {:induction false} WireMessagesShape(ms: seq<ChatMessage>)
    ensures |WireMessages(ms)| == |ms|
    ensures forall i :: 0 <= i < |ms| ==>
      WireMessages(ms)[i].role == ms[i].role && WireMessages(ms)[i].content == Parts(WireParts(ms[i].content))
    decreases |ms|
  {
    if ms != [] {
      WireMessagesShape(ms[..|ms| - 1]);
    }
  }

  /** The optional generation parameters: each key is sent exactly when the
      request carries the value, and carries it unchanged. */
  function Options(temperature: Option<real>, maxTokens: Option<int>): (opts: map<string, Scalar>)
    ensures "temperature" in opts <==> temperature.Some?
    ensures temperature.Some? ==> opts["temperature"] == Float(temperature.value)
    ensures "max_tokens" in opts <==> maxTokens.Some?
    ensures maxTokens.Some? ==> opts["max_tokens"] == Int(maxTokens.value)
    ensures opts.Keys <= {"temperature", "max_tokens"}
  {
    var withTemperature: map<string, Scalar> :=
      if temperature.Some? then map["temperature" := Float(temperature.value)] else map[];
    if maxTokens.Some? then withTemperature["max_tokens" := Int(maxTokens.value)] else withTemperature
  }

  /** A reply choice in the common shape: index, role and finish reason as
      the upstream gave them, the content as a single text part. */
  function ToChoice(c: ReplyChoice): Choice {
    Choice(c.index, ChatMessage(c.role, [TextPart(c.content)]), c.finishReason)
  }

  function Choices(cs: seq<ReplyChoice>): seq<Choice> {
    seq(|cs|, i requires 0 <= i < |cs| => ToChoice(cs[i]))
  }

  /** The Go loop `response.Choices[i] = ...` over a slice made to length. */
  method MapChoices(cs: seq<ReplyChoice>) returns (out: seq<Choice>)
    ensures |out| == |cs|
    ensures forall i :: 0 <= i < |cs| ==>
      && out[i].index == cs[i].index
      && out[i].message == ChatMessage(cs[i].role, [TextPart(cs[i].content)])
      && out[i].finishReason == cs[i].finishReason
  {
    var choices := new Choice[|cs|];
    for i := 0 to |cs|
      invariant forall k :: 0 <= k < i ==> choices[k] == ToChoice(cs[k])
    {
      choices[i] := Choice(cs[i].index, ChatMessage(cs[i].role, [TextPart(cs[i].content)]), cs[i].finishReason);
    }
    out := choices[..];
  }

  /** The common response for a decoded reply: identifier, object tag,
      timestamp, model and usage passed through, choices mapped. */
  function ToResponse(reply: OpenAIReply): ChatResponse {
    ChatResponse(reply.id, reply.objectTag, reply.created, reply.model, Choices(reply.choices), reply.usage)
  }

  /** Reply handling of the OpenRouter, Chutes and Atlas adapters. */
  function ResponseOf(o: HttpOutcome<OpenAIReply>): Result<ChatResponse, Error> {
    match o
    case TransportFailure(reason) => Failure(RequestFailed(reason))
    case Response(status, body, parsed) =>
      if status != StatusOK then Failure(ApiError(status, body))
      else if parsed.None? then Failure(ParseFailure)
      else Success(ToResponse(parsed.value))
  }

  method MapResponse(o: HttpOutcome<OpenAIReply>) returns (r: Result<ChatResponse, Error>)
    ensures r == ResponseOf(o)
  {
    match o
    case TransportFailure(reason) =>
      return Failure(RequestFailed(reason));
    case Response(status, body, parsed) =>
      if status != StatusOK {
        return Failure(ApiError(status, body));
      }
      if parsed.None? {
        return Failure(ParseFailure);
      }
      var reply := parsed.value;
      var choices := MapChoices(reply.choices);
      assert choices == Choices(reply.choices);
      r := Success(ChatResponse(reply.id, reply.objectTag, reply.created, reply.model, choices, reply.usage));
  }

  /** A successful reply is passed through: a response exists exactly for a
      decoded 200 reply, and then its identifier, object tag, timestamp, model
      and usage are the upstream's and its choices match the upstream's in
      count and order; any other status yields an error carrying the status
      and body. */
  lemma ResponseOfPassesThrough(o: HttpOutcome<OpenAIReply>)
    ensures ResponseOf(o).Success? <==> o.Response? && o.status == StatusOK && o.parsed.Some?
    ensures o.Response? && o.status != StatusOK ==> ResponseOf(o) == Failure(ApiError(o.status, o.body))
    ensures ResponseOf(o).Success? ==>
      var reply, resp := o.parsed.value, ResponseOf(o).value;
      && resp.id == reply.id && resp.objectTag == reply.objectTag && resp.created == reply.created
      && resp.model == reply.model && resp.usage == reply.usage
      && |resp.choices| == |reply.choices|
      && forall i :: 0 <= i < |reply.choices| ==> resp.choices[i] == ToChoice(reply.choices[i])
  {
  }
}
