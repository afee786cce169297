/** What the GigaChat adapter sees of one `fetch` call, and the errors it throws. */
module GigaChatHttp {

  /** The outcome of one HTTP exchange: the promise rejected (no response at all),
      the response came back with `ok == false`, or it came back ok with a body.
      For JSON bodies `T` is an `Option`, `None` standing for `response.json()` rejecting. */
  datatype HttpOutcome<T> = Unreachable | NotOk(statusText: string) | Ok(body: T)

  /** What the adapter throws, in the order the source can reach them. */
  datatype GatewayError =
    | NetworkError              // a `fetch` promise rejected
    | HttpError(message: string) // `throw new Error(...)` on a non-ok response
    | InvalidJson               // `response.json()` rejected
    | MissingChoice             // `result.choices[0]` is undefined, so `choice.message` is a TypeError
    | MissingUsage              // `result.usage` is undefined, so `usage.prompt_tokens` is a TypeError

  const AuthFailurePrefix := "Failed to get auth token: "
  const GenerateFailurePrefix := "Failed to generate completion: "
  const StreamFailurePrefix := "Failed to generate completion stream: "
}
