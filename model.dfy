/** The language-model object `getGigaChatModel` returns: `doGenerate` and
    `doStream` acquire a token, send one chat-completions request and turn the
    response into a result or a stream of events. */
module GigaChatModel {
  import opened Wrappers
  import opened GigaChatHttp
  import opened GigaChatAuth
  import opened GigaChatMessages
  import opened GigaChatFinish
  import opened GigaChatStream

  /** The call options the adapter reads; the sampling settings are passed through as they are. */
  datatype CallOptions = CallOptions(
    prompt: seq<PromptMessage>,
    temperature: Option<real>,
    maxTokens: Option<int>,
    topP: Option<real>,
    presencePenalty: Option<real>)

  /** The JSON body of `POST {baseUrl}/chat/completions`; the field names are
      the vendor's, and a `None` field is one `JSON.stringify` leaves out. */
  datatype RequestBody = RequestBody(
    model: string,
    messages: seq<WireMessage>,
    temperature: Option<real>,
    max_tokens: Option<int>,
    stream: bool,
    top_p: Option<real>,
    repetition_penalty: Option<real>)

  /** What is sent: the bearer token in the `Authorization` header, and the body. */
  datatype ChatRequest = ChatRequest(bearerToken: string, body: RequestBody)

  /** `rawCall.rawSettings`; `stream` is reported by `doStream` only. */
  datatype RawSettings = RawSettings(
    temperature: Option<real>,
    max_tokens: Option<int>,
    top_p: Option<real>,
    repetition_penalty: Option<real>,
    stream: Option<bool>)

  datatype RawCall = RawCall(rawPrompt: seq<WireMessage>, rawSettings: RawSettings)

  /** One entry of the non-streaming response's `choices`. */
  datatype CompletionChoice = CompletionChoice(content: string, finishReason: string)

  /** The non-streaming response body; `usage` is `None` when the field is absent. */
  datatype CompletionBody = CompletionBody(choices: seq<CompletionChoice>, usage: Option<Usage>)

  datatype GenerateResult = GenerateResult(text: string, finishReason: FinishReason, usage: Usage, rawCall: RawCall)

  /** The streaming response body: the decoded chunks the reader delivers, then how it ends. */
  datatype StreamBody = StreamBody(chunks: seq<string>, end: StreamEnd)

  datatype StreamResult = StreamResult(events: seq<StreamEvent>, rawCall: RawCall)

  /** The request body of both calls, `stream` being the only field that differs. */
  function BuildRequestBody(model: string, messages: seq<WireMessage>, options: CallOptions, stream: bool): (b: RequestBody)
    ensures b.model == model && b.messages == messages && b.stream == stream
    ensures b.temperature == options.temperature
    ensures b.max_tokens == options.maxTokens
    ensures b.top_p == options.topP
    ensures b.repetition_penalty == options.presencePenalty
  {
    RequestBody(model, messages, options.temperature, options.maxTokens, stream, options.topP, options.presencePenalty)
  }

  /** `rawCall.rawSettings`: the sampling options as the caller passed them, the
      presence penalty under the vendor's `repetition_penalty` name. */
  function BuildRawSettings(options: CallOptions, stream: Option<bool>): (s: RawSettings)
    ensures s.temperature == options.temperature && s.max_tokens == options.maxTokens
    ensures s.top_p == options.topP && s.repetition_penalty == options.presencePenalty
    ensures s.stream == stream
  {
    RawSettings(options.temperature, options.maxTokens, options.topP, options.presencePenalty, stream)
  }

  /** What the caller is told was sent is what was sent. */
  lemma RawSettingsMatchBody(model: string, messages: seq<WireMessage>, options: CallOptions, stream: bool)
    ensures var b := BuildRequestBody(model, messages, options, stream);
            var s := BuildRawSettings(options, if stream then Some(true) else None);
            s.temperature == b.temperature && s.max_tokens == b.max_tokens
            && s.top_p == b.top_p && s.repetition_penalty == b.repetition_penalty
            && (s.stream.Some? ==> s.stream.value == b.stream)
  {
  }

  /** The result `doGenerate` builds from a parsed response body. The first
      choice gives the text and the finish reason; a missing first choice or a
      missing `usage` is the TypeError the property accesses throw. */
  function ComposeResult(body: CompletionBody, rawCall: RawCall): (r: Result<GenerateResult, GatewayError>)
    ensures body.choices == [] <==> r == Failure(MissingChoice)
    ensures body.choices != [] && body.usage.None? <==> r == Failure(MissingUsage)
    ensures r.Success? <==> body.choices != [] && body.usage.Some?
    ensures r.Success? ==>
              && r.value.text == body.choices[0].content
              && r.value.finishReason == MapFinishReason(body.choices[0].finishReason)
              && r.value.usage == body.usage.value
              && r.value.rawCall == rawCall
  {
    if body.choices == [] then Failure(MissingChoice)
    else if body.usage.None? then Failure(MissingUsage)
    else
      var choice := body.choices[0];
      Success(GenerateResult(choice.content, MapFinishReason(choice.finishReason), body.usage.value, rawCall))
  }

  /** How `doGenerate` treats the chat response once the request is sent. */
  function GenerateOutcome(response: HttpOutcome<Option<CompletionBody>>, rawCall: RawCall): (r: Result<GenerateResult, GatewayError>)
    ensures response.Unreachable? ==> r == Failure(NetworkError)
    ensures response.NotOk? ==> r == Failure(HttpError(GenerateFailurePrefix + response.statusText))
    ensures response == Ok(None) ==> r == Failure(InvalidJson)
    ensures response.Ok? && response.body.Some? ==> r == ComposeResult(response.body.value, rawCall)
  {
    match response
    case Unreachable => Failure(NetworkError)
    case NotOk(statusText) => Failure(HttpError(GenerateFailurePrefix + statusText))
    case Ok(None) => Failure(InvalidJson)
    case Ok(Some(body)) => ComposeResult(body, rawCall)
  }

  /** `doGenerate`: authenticate through the cache, then, only if that
      succeeded, send the request with `stream: false`. */
  method DoGenerate(cache: TokenCache, now: int, apiKey: string, auth: HttpOutcome<Option<CachedToken>>,
                    model: string, options: CallOptions, response: HttpOutcome<Option<CompletionBody>>)
    returns (r: Result<GenerateResult, GatewayError>, sent: Option<ChatRequest>)
    modifies cache
    ensures var a := Authenticate(old(cache.cachedToken), now, apiKey, auth);
            && cache.cachedToken == a.cache
            && (a.result.Failure? ==> r == Failure(a.result.error) && sent == None)
            && (a.result.Success? ==>
                  var messages := ConvertMessages(options.prompt);
                  && sent == Some(ChatRequest(a.result.value.accessToken, BuildRequestBody(model, messages, options, false)))
                  && r == GenerateOutcome(response, RawCall(messages, BuildRawSettings(options, None))))
  {
    var token, _ := cache.GetAuthToken(now, apiKey, auth);
    if token.Failure? {
      return Failure(token.error), None;
    }
    var messages := ConvertMessages(options.prompt);
    sent := Some(ChatRequest(token.value.accessToken, BuildRequestBody(model, messages, options, false)));
    r := GenerateOutcome(response, RawCall(messages, BuildRawSettings(options, None)));
  }

  /** `doStream`: authenticate, send the request with `stream: true`; a non-ok
      response throws before any event exists, an ok one has its body run
      through the stream parser. */
  method DoStream(cache: TokenCache, now: int, apiKey: string, auth: HttpOutcome<Option<CachedToken>>,
                  model: string, options: CallOptions, response: HttpOutcome<StreamBody>, decode: string -> Frame)
    returns (r: Result<StreamResult, GatewayError>, sent: Option<ChatRequest>)
    modifies cache
    ensures var a := Authenticate(old(cache.cachedToken), now, apiKey, auth);
            && cache.cachedToken == a.cache
            && (a.result.Failure? ==> r == Failure(a.result.error) && sent == None)
            && (a.result.Success? ==>
                  var messages := ConvertMessages(options.prompt);
                  && sent == Some(ChatRequest(a.result.value.accessToken, BuildRequestBody(model, messages, options, true)))
                  && r == match response
                          case Unreachable => Failure(NetworkError)
                          case NotOk(statusText) => Failure(HttpError(StreamFailurePrefix + statusText))
                          case Ok(body) =>
                            Success(StreamResult(StreamEvents(body.chunks, body.end, decode),
                                                 RawCall(messages, BuildRawSettings(options, Some(true))))))
  {
    var token, _ := cache.GetAuthToken(now, apiKey, auth);
    if token.Failure? {
      return Failure(token.error), None;
    }
    var messages := ConvertMessages(options.prompt);
    sent := Some(ChatRequest(token.value.accessToken, BuildRequestBody(model, messages, options, true)));
    match response {
      case Unreachable =>
        r := Failure(NetworkError);
      case NotOk(statusText) =>
        r := Failure(HttpError(StreamFailurePrefix + statusText));
      case Ok(body) =>
        var controller := new StreamController();
        Pump(controller, body.chunks, body.end, decode);
        r := Success(StreamResult(controller.queued, RawCall(messages, BuildRawSettings(options, Some(true)))));
    }
  }

  /** The end-to-end case: a usable cached token, an ok response with one
      choice `"hi"`/`"stop"` and usage 5/1 give `{text: "hi", finishReason: stop, usage: 5/1}`
      without a request to the OAuth endpoint. */
  lemma GenerateFromCachedToken(token: CachedToken, now: int, apiKey: string, auth: HttpOutcome<Option<CachedToken>>, rawCall: RawCall)
    requires token.expiresAt > now + SafetyMargin
    ensures Authenticate(Some(token), now, apiKey, auth).sentKey.None?
    ensures GenerateOutcome(Ok(Some(CompletionBody([CompletionChoice("hi", "stop")], Some(Usage(5, 1))))), rawCall)
            == Success(GenerateResult("hi", Stop, Usage(5, 1), rawCall))
  {
  }
}
