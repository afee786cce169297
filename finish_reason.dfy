/** `mapFinishReason`: GigaChat's `finish_reason` codes mapped onto the closed
    set of finish reasons of the language-model interface. */
module GigaChatFinish {

  datatype FinishReason = Stop | Length | ContentFilter | ToolCalls | Error | Unknown

  /** The vendor codes the mapping recognises. */
  const KnownCodes: set<string> := {"stop", "length", "content-filter", "function_call", "error"}

  /** Total: every string maps to something, and only the five known codes escape `Unknown`. */
  function MapFinishReason(reason: string): (r: FinishReason)
    ensures r == Stop <==> reason == "stop"
    ensures r == Length <==> reason == "length"
    ensures r == ContentFilter <==> reason == "content-filter"
    ensures r == ToolCalls <==> reason == "function_call"
    ensures r == Error <==> reason == "error"
    ensures r == Unknown <==> reason !in KnownCodes
  {
    match reason
    case "stop" => Stop
    case "length" => Length
    case "content-filter" => ContentFilter
    case "function_call" => ToolCalls
    case "error" => Error
    case _ => Unknown
  }

  /** The string the interface uses for each finish reason (what the source returns). */
  function Name(r: FinishReason): string
  {
    match r
    case Stop => "stop"
    case Length => "length"
    case ContentFilter => "content-filter"
    case ToolCalls => "tool-calls"
    case Error => "error"
    case Unknown => "unknown"
  }

  /** Feeding an interface name back in gives the same reason, except for
      `tool-calls`, which GigaChat spells `function_call`. */
  lemma NameRoundTrip(r: FinishReason)
    ensures r != ToolCalls ==> MapFinishReason(Name(r)) == r
    ensures MapFinishReason(Name(ToolCalls)) == Unknown
  {
  }

  lemma SampleCodes()
    ensures MapFinishReason("stop") == Stop && MapFinishReason("length") == Length
    ensures MapFinishReason("content-filter") == ContentFilter && MapFinishReason("function_call") == ToolCalls
    ensures MapFinishReason("banana") == Unknown
  {
  }
}
